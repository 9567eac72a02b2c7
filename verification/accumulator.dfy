/** The serial command accumulator of both STM32 builds: the USART1 receive
    interrupt that collects bytes into an 8-byte buffer and commits it to the
    velocity, RPM or gear slot on 'V', 'S' or 'E', and the velocity clamp that
    feeds the PWM channels. The two builds share the handler verbatim and differ
    only in the clamp bound and the number of PWM channels, so one machine
    parameterised by `Variant` models both. */
module SerialAccumulator {
  import opened CText

  /** BUFFER_SIZE: the size of every buffer, terminator included. */
  const BufferSize := 8

  const V: Byte := 86   // 'V'
  const S: Byte := 83   // 'S'
  const E: Byte := 69   // 'E'

  predicate IsTerminator(b: Byte) { b == V || b == S || b == E }

  /** The RTOS build (four PWM channels, clamp at 50) and the bare-metal build
      (one PWM channel, clamp at 100). */
  datatype Variant = FreeRtos | BareMetal

  function ClampBound(v: Variant): int
  {
    match v
    case FreeRtos => 50
    case BareMetal => 100
  }

  function Channels(v: Variant): nat
  {
    match v
    case FreeRtos => 4
    case BareMetal => 1
  }

  /** The `if (velocity > bound) velocity = bound;` check: no lower bound. */
  function Clamp(velocity: int, bound: int): (r: int)
    ensures r <= bound
    ensures velocity <= bound ==> r == velocity
    ensures velocity > bound ==> r == bound
  {
    if velocity > bound then bound else velocity
  }

  /** Running the clamp again with no byte received in between changes nothing. */
  lemma ClampIdempotent(velocity: int, bound: int)
    ensures Clamp(Clamp(velocity, bound), bound) == Clamp(velocity, bound)
  {
  }

  /** The globals the handler touches: buffer_str, index_k, the three committed
      buffers and velocity. */
  datatype Machine = Machine(str: seq<Byte>, index: int, vel: seq<Byte>, rpm: seq<Byte>,
                             gear: seq<Byte>, velocity: int)

  const Zeros: seq<Byte> := [NUL, NUL, NUL, NUL, NUL, NUL, NUL, NUL]

  /** All globals zero-initialised, as at reset. */
  const Initial: Machine := Machine(Zeros, 0, Zeros, Zeros, Zeros, 0)

  predicate NoTerminator(buf: seq<Byte>) { forall i | 0 <= i < |buf| :: !IsTerminator(buf[i]) }

  /** The committed buffer is a NUL-terminated string of at most 7 characters. */
  predicate IsSlot(buf: seq<Byte>) { |buf| == BufferSize && buf[BufferSize - 1] == NUL && NoTerminator(buf) }

  /** What the handler keeps true: index_k in 0..7, every byte from index_k on is
      NUL (so buffer_str[7] is NUL), no terminator letter is ever stored, and
      velocity is an `int`. */
  predicate Inv(m: Machine)
  {
    && |m.str| == BufferSize
    && 0 <= m.index <= BufferSize - 1
    && (forall i | m.index <= i < BufferSize :: m.str[i] == NUL)
    && NoTerminator(m.str)
    && IsSlot(m.vel) && IsSlot(m.rpm) && IsSlot(m.gear)
    && InInt32(m.velocity)
  }

  /** The bytes received since the last commit or reset. */
  function Pending(m: Machine): seq<Byte>
    requires Inv(m)
  {
    m.str[..m.index]
  }

  /** One invocation of USART1_IRQHandler; `ready` is the RXNE bit (ISR bit 5)
      and `b` the byte read from RDR. */
  function Step(m: Machine, ready: bool, b: Byte): (r: Machine)
    requires Inv(m)
    ensures Inv(r)
    ensures !ready ==> r == m
  {
    if !ready then m
    else if IsTerminator(b) then
      CommitKeepsInv(m);
      AtoiFitsInt32(CStr(m.str));
      var cleared := m.(str := Zeros, index := 0);
      if b == V then cleared.(velocity := Atoi(CStr(m.str)), vel := m.str)
      else if b == S then cleared.(rpm := m.str)
      else cleared.(gear := m.str)
    else if m.index < BufferSize - 1 then
      StoreKeepsInv(m, b);
      m.(str := m.str[m.index := b], index := m.index + 1)
    else
      CommitKeepsInv(m);
      m.(str := Zeros, index := 0)
  }

  /** buffer_str is always fit to be committed, and clearing it keeps the invariant. */
  lemma CommitKeepsInv(m: Machine)
    requires Inv(m)
    ensures IsSlot(m.str)
    ensures Inv(m.(str := Zeros, index := 0))
  {
  }

  lemma StoreKeepsInv(m: Machine, b: Byte)
    requires Inv(m) && !IsTerminator(b) && m.index < BufferSize - 1
    ensures Inv(m.(str := m.str[m.index := b], index := m.index + 1))
  {
    var t := m.str[m.index := b];
    assert forall i | 0 <= i < BufferSize :: t[i] == if i == m.index then b else m.str[i];
  }

  /** The handler run once per byte of `bytes`, each with RXNE set. */
  function Run(m: Machine, bytes: seq<Byte>): (r: Machine)
    requires Inv(m)
    ensures Inv(r)
  {
    if bytes == [] then m else Step(Run(m, bytes[..|bytes| - 1]), true, bytes[|bytes| - 1])
  }

  lemma InitialInv()
    ensures Inv(Initial)
  {
  }

  /** With RXNE clear nothing changes; an ordinary byte below capacity is
      appended to the pending text and nothing else moves. */
  lemma {:induction false} StepOrdinary(m: Machine, b: Byte)
    requires Inv(m) && !IsTerminator(b) && m.index < BufferSize - 1
    ensures Step(m, false, b) == m
    ensures Pending(Step(m, true, b)) == Pending(m) + [b]
    ensures Step(m, true, b).index == m.index + 1
    ensures Step(m, true, b).str[m.index] == b
    ensures forall i | 0 <= i < BufferSize && i != m.index :: Step(m, true, b).str[i] == m.str[i]
    ensures Step(m, true, b).(str := m.str, index := m.index) == m
  {
    var r := Step(m, true, b);
    assert r.str == m.str[m.index := b];
    assert Pending(r) == m.str[..m.index] + [b];
  }

  /** Overflow: an ordinary byte arriving when seven are pending wipes the buffer
      and is itself dropped. */
  lemma {:induction false} StepOverflow(m: Machine, b: Byte)
    requires Inv(m) && !IsTerminator(b) && m.index == BufferSize - 1
    ensures Pending(Step(m, true, b)) == []
    ensures Step(m, true, b).str == Zeros
    ensures Step(m, true, b).(str := m.str, index := m.index) == m
  {
  }

  /** 'V' commits: buffer_vel becomes the old buffer_str, velocity its `atoi`, and
      the accumulator is emptied; the RPM and gear slots stay as they were. */
  lemma CommitVelocity(m: Machine)
    requires Inv(m)
    ensures Step(m, true, V).vel == m.str
    ensures Step(m, true, V).velocity == Atoi(CStr(m.str))
    ensures Step(m, true, V).str == Zeros && Pending(Step(m, true, V)) == []
    ensures Step(m, true, V).rpm == m.rpm && Step(m, true, V).gear == m.gear
  {
  }

  /** 'S' and 'E' commit to buffer_rpm and buffer_gear and never touch velocity. */
  lemma CommitText(m: Machine, t: Byte)
    requires Inv(m) && (t == S || t == E)
    ensures t == S ==> Step(m, true, t) == m.(rpm := m.str, str := Zeros, index := 0)
    ensures t == E ==> Step(m, true, t) == m.(gear := m.str, str := Zeros, index := 0)
    ensures Step(m, true, t).velocity == m.velocity
  {
  }

  /** A run of ordinary bytes from an empty accumulator: every eighth byte wipes
      the buffer and is dropped, so what is pending is the tail of the run after
      the last multiple of eight; the slots and velocity do not move. */
  lemma {:induction false} OrdinaryRun(m: Machine, s: seq<Byte>)
    requires Inv(m) && m.index == 0 && NoTerminator(s)
    ensures Run(m, s).index == |s| % BufferSize
    ensures Pending(Run(m, s)) == s[|s| - |s| % BufferSize..]
    ensures Run(m, s).(str := m.str, index := 0) == m
  {
    if s != [] {
      var p, b := s[..|s| - 1], s[|s| - 1];
      assert NoTerminator(p);
      OrdinaryRun(m, p);
      assert Run(m, s) == Step(Run(m, p), true, b);
      assert s == p + [b];
      OrdinaryStep(m, Run(m, p), p, b);
    }
  }

  /** The step of `OrdinaryRun`: one more ordinary byte after the run `p`. */
  lemma {:induction false} OrdinaryStep(m: Machine, q: Machine, p: seq<Byte>, b: Byte)
    requires Inv(m) && Inv(q) && !IsTerminator(b)
    requires q.index == |p| % BufferSize && Pending(q) == p[|p| - |p| % BufferSize..]
    requires q.(str := m.str, index := 0) == m
    ensures Step(q, true, b).index == (|p| + 1) % BufferSize
    ensures Pending(Step(q, true, b)) == (p + [b])[|p| + 1 - (|p| + 1) % BufferSize..]
    ensures Step(q, true, b).(str := m.str, index := 0) == m
  {
    var n := |p| + 1;
    CountStep(n);
    if q.index < BufferSize - 1 {
      StepOrdinary(q, b);
      assert n - n % BufferSize == (n - 1) - (n - 1) % BufferSize;
      calc {
        Pending(Step(q, true, b));
        Pending(q) + [b];
        p[n - n % BufferSize..] + [b];
        (p + [b])[n - n % BufferSize..];
      }
    } else {
      StepOverflow(q, b);
    }
  }

  lemma CountStep(n: nat)
    requires n > 0
    ensures (n - 1) % BufferSize < BufferSize - 1 ==> n % BufferSize == (n - 1) % BufferSize + 1
    ensures (n - 1) % BufferSize == BufferSize - 1 ==> n % BufferSize == 0
  {
  }

  /** The 9th byte of an unterminated run starts a fresh accumulation at index 0. */
  lemma {:induction false} NinthByteStartsFresh(m: Machine, s: seq<Byte>)
    requires Inv(m) && m.index == 0 && NoTerminator(s) && |s| == 9
    ensures Pending(Run(m, s[..8])) == []
    ensures Pending(Run(m, s)) == [s[8]]
    ensures Run(m, s).str[0] == s[8]
  {
    OrdinaryRun(m, s[..8]);
    OrdinaryRun(m, s);
  }

  /** `w` NUL-padded to a whole buffer. */
  function Padded(w: seq<Byte>): (buf: seq<Byte>)
    requires |w| <= BufferSize
    ensures |buf| == BufferSize && buf[..|w|] == w
    ensures forall i | |w| <= i < BufferSize :: buf[i] == NUL
  {
    w + seq(BufferSize - |w|, _ => NUL)
  }

  /** A NUL-free prefix survives intact in the C string of a buffer. */
  lemma {:induction false} CStrAppend(w: seq<Byte>, rest: seq<Byte>)
    requires NUL !in w
    ensures CStr(w + rest) == w + CStr(rest)
  {
    if w != [] {
      assert w[0] in w;
      assert (w + rest)[1..] == w[1..] + rest;
      calc {
        CStr(w + rest);
        [w[0]] + CStr(w[1..] + rest);
        { CStrAppend(w[1..], rest); }
        [w[0]] + (w[1..] + CStr(rest));
        { assert w == [w[0]] + w[1..]; }
        w + CStr(rest);
      }
    } else {
      assert w + rest == rest;
    }
  }

  /** A NUL-free text reads back from its padded buffer as itself. */
  lemma {:induction false} CStrOfPadded(w: seq<Byte>)
    requires |w| < BufferSize && NUL !in w
    ensures CStr(Padded(w)) == w
  {
    var pad := seq(BufferSize - |w|, _ => NUL);
    CStrAppend(w, pad);
    assert CStr(pad) == [];
  }

  /** A command of up to seven ordinary bytes followed by its terminator, sent
      to an empty accumulator, lands in exactly one slot as the padded text; only
      'V' parses it, and the accumulator is empty again afterwards. */
  lemma {:induction false} CommandCommits(m: Machine, w: seq<Byte>, t: Byte)
    requires Inv(m) && m.index == 0 && NoTerminator(w) && |w| < BufferSize && IsTerminator(t)
    ensures t == V ==> Run(m, w + [t]) == m.(vel := Padded(w), velocity := Atoi(CStr(Padded(w))))
    ensures t == S ==> Run(m, w + [t]) == m.(rpm := Padded(w))
    ensures t == E ==> Run(m, w + [t]) == m.(gear := Padded(w))
  {
    OrdinaryRun(m, w);
    var q := Run(m, w);
    assert (w + [t])[..|w|] == w;
    assert q.index == |w| && Pending(q) == w;
    assert q.str == Padded(w);
    assert m.str == Zeros;
  }

  /** Sending the same complete command twice in a row leaves the globals exactly
      as sending it once. */
  lemma {:induction false} CommandIdempotent(m: Machine, w: seq<Byte>, t: Byte)
    requires Inv(m) && m.index == 0 && NoTerminator(w) && |w| < BufferSize && IsTerminator(t)
    ensures Run(Run(m, w + [t]), w + [t]) == Run(m, w + [t])
  {
    CommandCommits(m, w, t);
    var r := Run(m, w + [t]);
    CommandCommits(r, w, t);
  }

  /** Two 'V's in a row: the second commits an empty buffer, which `atoi` reads
      as 0, whatever came before. */
  lemma {:induction false} DoubleVelocityCommit(m: Machine)
    requires Inv(m)
    ensures Run(m, [V, V]).velocity == 0
    ensures Run(m, [V, V]).vel == Zeros
  {
    assert [V, V][..1] == [V];
    assert [V][..0] == [];
    assert CStr(Zeros) == [];
  }

  /** A NUL-free velocity command sent to an empty accumulator sets velocity to
      `atoi` of exactly the text sent, and the velocity slot shows that text. */
  lemma {:induction false} VelocityCommand(m: Machine, w: seq<Byte>)
    requires Inv(m) && m.index == 0 && NoTerminator(w) && |w| < BufferSize && NUL !in w
    ensures Run(m, w + [V]).velocity == Atoi(w)
    ensures CStr(Run(m, w + [V]).vel) == w
  {
    CommandCommits(m, w, V);
    CStrOfPadded(w);
  }

  /** "50V" sent to an empty accumulator commits velocity 50 and shows "50" in
      the velocity slot. */
  lemma {:induction false} FiftyV(m: Machine)
    requires Inv(m) && m.index == 0
    ensures Run(m, [53, 48, V]).velocity == 50        // '5', '0', 'V'
    ensures CStr(Run(m, [53, 48, V]).vel) == [53, 48]
  {
    assert [53, 48, V] == [53, 48] + [V];
    VelocityCommand(m, [53, 48]);
    ParseFifty();
  }

  lemma ParseFifty()
    ensures Atoi([53, 48]) == 50
  {
    AtoiOfDigits([53, 48]);
    DigitsFifty();
  }

  lemma DigitsFifty()
    ensures DigitsValue([53, 48]) == 50
  {
  }

  /** "N3E" sent to an empty accumulator commits gear text "N3" verbatim and
      leaves velocity alone. */
  lemma {:induction false} GearN3(m: Machine)
    requires Inv(m) && m.index == 0
    ensures CStr(Run(m, [78, 51, E]).gear) == [78, 51]  // 'N', '3', 'E'
    ensures Run(m, [78, 51, E]).velocity == m.velocity
  {
    assert [78, 51, E] == [78, 51] + [E];
    CommandCommits(m, [78, 51], E);
    CStrOfPadded([78, 51]);
  }

  /** memset(buf, 0, sizeof(buf)) */
  method Memset(buf: array<Byte>)
    requires buf.Length == BufferSize
    modifies buf
    ensures buf[..] == Zeros
  {
    forall i | 0 <= i < buf.Length {
      buf[i] := NUL;
    }
    assert buf[..] == Zeros;
  }

  /** memcpy(dst, src, sizeof(src)) between two distinct buffers of one size. */
  method Memcpy(dst: array<Byte>, src: array<Byte>)
    requires dst != src && dst.Length == src.Length
    modifies dst
    ensures dst[..] == src[..]
  {
    forall i | 0 <= i < dst.Length {
      dst[i] := src[i];
    }
  }

  /** The firmware's globals for one build, updated in place by the receive
      interrupt and by the PWM update. */
  class Accumulator {
    const variant: Variant
    const bufferStr: array<Byte>
    const bufferVel: array<Byte>
    const bufferRpm: array<Byte>
    const bufferGear: array<Byte>
    var velocity: int
    var indexK: int

    ghost function State(): Machine
      reads this, bufferStr, bufferVel, bufferRpm, bufferGear
    {
      Machine(bufferStr[..], indexK, bufferVel[..], bufferRpm[..], bufferGear[..], velocity)
    }

    ghost predicate Valid()
      reads this, bufferStr, bufferVel, bufferRpm, bufferGear
    {
      && bufferStr != bufferVel && bufferStr != bufferRpm && bufferStr != bufferGear
      && bufferVel != bufferRpm && bufferVel != bufferGear && bufferRpm != bufferGear
      && Inv(State())
    }

    /** Reset: every global zero. */
    constructor (variant: Variant)
      ensures Valid() && this.variant == variant
      ensures State() == Initial
      ensures fresh(bufferStr) && fresh(bufferVel) && fresh(bufferRpm) && fresh(bufferGear)
    {
      this.variant := variant;
      bufferStr := new Byte[BufferSize](_ => NUL);
      bufferVel := new Byte[BufferSize](_ => NUL);
      bufferRpm := new Byte[BufferSize](_ => NUL);
      bufferGear := new Byte[BufferSize](_ => NUL);
      velocity := 0;
      indexK := 0;
      new;
      assert bufferStr[..] == Zeros;
    }

    /** USART1_IRQHandler: `rxReady` is ISR bit 5 (RXNE), `received` the RDR byte. */
    method ReceiveInterrupt(rxReady: bool, received: Byte)
      requires Valid()
      modifies this`velocity, this`indexK, bufferStr, bufferVel, bufferRpm, bufferGear
      ensures Valid()
      ensures State() == Step(old(State()), rxReady, received)
    {
      if rxReady {
        if IsTerminator(received) {
          Commit(received);
        } else {
          Store(received);
        }
      }
    }

    /** The 'V', 'S' and 'E' branches of the handler. */
    method Commit(received: Byte)
      requires Valid() && IsTerminator(received)
      modifies this`velocity, this`indexK, bufferStr, bufferVel, bufferRpm, bufferGear
      ensures Valid()
      ensures State() == Step(old(State()), true, received)
    {
      if received == V {
        AtoiFitsInt32(CStr(bufferStr[..]));
        velocity := Atoi(CStr(bufferStr[..]));
        Memcpy(bufferVel, bufferStr);
      } else if received == S {
        Memcpy(bufferRpm, bufferStr);
      } else {
        Memcpy(bufferGear, bufferStr);
      }
      Memset(bufferStr);
      indexK := 0;
    }

    /** The branch of the handler for every other byte. */
    method Store(received: Byte)
      requires Valid() && !IsTerminator(received)
      modifies this`indexK, bufferStr
      ensures Valid()
      ensures State() == Step(old(State()), true, received)
    {
      if indexK < BufferSize - 1 {
        bufferStr[indexK] := received;
        indexK := indexK + 1;
      } else {
        Memset(bufferStr);
        indexK := 0;
      }
      assert bufferStr[..] == Step(old(State()), true, received).str;
    }

    /** The PWM update: StartTask4's loop body in the RTOS build (four channels),
        Set_pwm in the bare-metal build (one channel). `duties[i]` is the value
        handed to update_cycle for channel i + 1. */
    method SetPwm() returns (duties: seq<int>)
      requires Valid()
      modifies this`velocity
      ensures Valid()
      ensures velocity == Clamp(old(velocity), ClampBound(variant))
      ensures State() == old(State()).(velocity := velocity)
      ensures |duties| == Channels(variant)
      ensures forall i | 0 <= i < |duties| :: duties[i] == velocity
    {
      if velocity > ClampBound(variant) {
        velocity := ClampBound(variant);
      }
      var duty := velocity;
      duties := seq(Channels(variant), _ => duty);
    }
  }
}
