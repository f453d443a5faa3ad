/**
 * The four hardware timers (src/Timer.cpp). Each channel counts up once
 * every `prescalar` global ticks, reloads its initial value on overflow,
 * can request an interrupt, and on overflow bumps the next channel when
 * that one is enabled in cascade (count-up) mode.
 *
 * The pure functions below give the effect of one tick on the channel
 * table; Timer.Tick is the in-place loop of the source and is proved to
 * compute exactly that.
 */
module Timers {
  import opened Bits
  import Irqs

  /** One channel: TMxCNT (freq bits 0-1, cascade bit 2, irq bit 6, enable bit 7), reload value, counter. */
  datatype Channel = Channel(cnt: Half, initial: Half, data: Half, prescalar: int)

  predicate Enabled(c: Channel) { c.cnt & 0x80 != 0 }
  predicate Cascading(c: Channel) { c.cnt & 0x04 != 0 }
  predicate IrqOnOverflow(c: Channel) { c.cnt & 0x40 != 0 }

  /** The prescaler selected by TMxCNT bits 0-1. */
  function PrescalarOf(cnt: Half): (p: int)
    ensures p in {1, 64, 256, 1024}
    ensures cnt & 3 == 0 <==> p == 1
    ensures cnt & 3 == 3 <==> p == 1024
  {
    match cnt & 3
    case 0 => 1
    case 1 => 64
    case 2 => 256
    case _ => 1024
  }

  /** A channel table of four channels whose prescalars are the ones writeCnt can set. */
  ghost predicate WellFormed(chs: seq<Channel>)
  {
    |chs| == 4 && forall k :: 0 <= k < 4 ==> chs[k].prescalar in {1, 64, 256, 1024}
  }

  /** Channel state and the interrupts requested so far in this tick. */
  datatype TickState = TickState(chs: seq<Channel>, raised: seq<Irqs.Occasion>)

  /**
   * cascade(ch): the overflow of channel ch increments channel ch + 1 when
   * that one is enabled and cascading, and an overflow there carries on.
   * A carried overflow neither reloads nor requests an interrupt.
   */
  function Cascade(chs: seq<Channel>, ch: nat): (r: seq<Channel>)
    requires |chs| == 4 && ch < 4
    ensures |r| == 4
    decreases 3 - ch
  {
    if ch == 3 then chs
    else
      var next := chs[ch + 1];
      if Enabled(next) && Cascading(next) then
        var bumped := chs[ch + 1 := next.(data := next.data + 1)];
        if bumped[ch + 1].data == 0 then Cascade(bumped, ch + 1) else bumped
      else chs
  }

  /** Channel i's part of tick(), given the already incremented tick counter. */
  function Step(st: TickState, i: nat, ticks: int): (r: TickState)
    requires WellFormed(st.chs) && i < 4
    ensures WellFormed(r.chs)
  {
    var c := st.chs[i];
    if !Enabled(c) || Cascading(c) || ticks % c.prescalar != 0 then st
    else
      var c1 := c.(data := c.data + 1);
      if c1.data != 0 then TickState(st.chs[i := c1], st.raised)
      else
        var raised := if IrqOnOverflow(c) then st.raised + [Irqs.Timer0 + i] else st.raised;
        var reloaded := st.chs[i := c1.(data := c.initial)];
        CascadePreserves(reloaded, i);
        TickState(Cascade(reloaded, i), raised)
  }

  /** Channels i..3 of tick(), in order. */
  function StepsFrom(st: TickState, i: nat, ticks: int): (r: TickState)
    requires WellFormed(st.chs) && i <= 4
    ensures WellFormed(r.chs)
    decreases 4 - i
  {
    if i == 4 then st else StepsFrom(Step(st, i, ticks), i + 1, ticks)
  }

  /** Cascading only changes counters, and only above ch. */
  lemma {:induction false} CascadePreserves(chs: seq<Channel>, ch: nat)
    requires |chs| == 4 && ch < 4
    ensures forall k :: 0 <= k < 4 ==> Cascade(chs, ch)[k] == chs[k].(data := Cascade(chs, ch)[k].data)
    ensures forall k :: 0 <= k <= ch ==> Cascade(chs, ch)[k] == chs[k]
    decreases 3 - ch
  {
    if ch < 3 {
      var next := chs[ch + 1];
      if Enabled(next) && Cascading(next) {
        var bumped := chs[ch + 1 := next.(data := next.data + 1)];
        if bumped[ch + 1].data == 0 {
          CascadePreserves(bumped, ch + 1);
        }
      }
    }
  }

  /** Channel 3 has no successor: its overflow never reaches another channel. */
  lemma ChannelThreeNeverCascades(chs: seq<Channel>)
    requires |chs| == 4
    ensures Cascade(chs, 3) == chs
  {
  }

  /** The next channel is incremented by an overflow exactly when it is enabled and cascading. */
  lemma CascadeBumpsNext(chs: seq<Channel>, ch: nat)
    requires |chs| == 4 && ch < 3
    ensures Enabled(chs[ch + 1]) && Cascading(chs[ch + 1])
            ==> Cascade(chs, ch)[ch + 1].data == chs[ch + 1].data + 1
    ensures !(Enabled(chs[ch + 1]) && Cascading(chs[ch + 1])) ==> Cascade(chs, ch) == chs
  {
    var next := chs[ch + 1];
    if Enabled(next) && Cascading(next) {
      var bumped := chs[ch + 1 := next.(data := next.data + 1)];
      if bumped[ch + 1].data == 0 {
        CascadePreserves(bumped, ch + 1);
      }
    }
  }

  /** A disabled channel, or a counting channel off its prescaler beat, is never touched by a tick. */
  lemma {:induction false} StepsFromKeepsIdle(st: TickState, i: nat, ticks: int, k: nat)
    requires WellFormed(st.chs) && i <= 4 && k < 4
    requires !Enabled(st.chs[k]) || (!Cascading(st.chs[k]) && ticks % st.chs[k].prescalar != 0)
    ensures StepsFrom(st, i, ticks).chs[k] == st.chs[k]
    decreases 4 - i
  {
    if i < 4 {
      var st1 := Step(st, i, ticks);
      StepKeepsIdle(st, i, ticks, k);
      StepsFromKeepsIdle(st1, i + 1, ticks, k);
    }
  }

  lemma StepKeepsIdle(st: TickState, i: nat, ticks: int, k: nat)
    requires WellFormed(st.chs) && i < 4 && k < 4
    requires !Enabled(st.chs[k]) || (!Cascading(st.chs[k]) && ticks % st.chs[k].prescalar != 0)
    ensures Step(st, i, ticks).chs[k] == st.chs[k]
  {
    var c := st.chs[i];
    if Enabled(c) && !Cascading(c) && ticks % c.prescalar == 0 {
      var c1 := c.(data := c.data + 1);
      if c1.data == 0 {
        var reloaded := st.chs[i := c1.(data := c.initial)];
        CascadeKeepsIdle(reloaded, i, k);
      }
    }
  }

  /** A cascade walk stops at the first channel that is not enabled and cascading. */
  lemma {:induction false} CascadeKeepsIdle(chs: seq<Channel>, ch: nat, k: nat)
    requires |chs| == 4 && ch < 4 && k < 4
    requires !(Enabled(chs[k]) && Cascading(chs[k]))
    ensures Cascade(chs, ch)[k] == chs[k]
    decreases 3 - ch
  {
    if ch < 3 {
      var next := chs[ch + 1];
      if Enabled(next) && Cascading(next) {
        var bumped := chs[ch + 1 := next.(data := next.data + 1)];
        if bumped[ch + 1].data == 0 {
          CascadeKeepsIdle(bumped, ch + 1, k);
        }
      }
    }
  }

  /**
   * On its beat an enabled, non-cascading channel counts up by one, and on
   * overflow it holds its reload value; the step requests the channel's
   * interrupt exactly when it overflowed with IRQ enabled.
   */
  lemma StepCounts(st: TickState, i: nat, ticks: int)
    requires WellFormed(st.chs) && i < 4
    requires Enabled(st.chs[i]) && !Cascading(st.chs[i]) && ticks % st.chs[i].prescalar == 0
    ensures st.chs[i].data != 0xFFFF ==> Step(st, i, ticks).chs[i].data == st.chs[i].data + 1
    ensures st.chs[i].data == 0xFFFF ==> Step(st, i, ticks).chs[i].data == st.chs[i].initial
    ensures Step(st, i, ticks).raised ==
            if st.chs[i].data == 0xFFFF && IrqOnOverflow(st.chs[i]) then st.raised + [Irqs.Timer0 + i] else st.raised
  {
    var c := st.chs[i];
    if c.data == 0xFFFF {
      CascadePreserves(st.chs[i := c.(data := c.initial)], i);
    }
  }

  /** A step appends its requests to whatever was requested before it. */
  lemma StepCarries(chs: seq<Channel>, raised: seq<Irqs.Occasion>, i: nat, ticks: int)
    requires WellFormed(chs) && i < 4
    ensures var st := Step(TickState(chs, []), i, ticks);
            Step(TickState(chs, raised), i, ticks) == TickState(st.chs, raised + st.raised)
  {
  }

  class Timer {
    var ticks: int
    const channel: array<Channel>
    const irq: Irqs.Irq

    ghost predicate Valid()
      reads this, channel
    {
      WellFormed(channel[..])
    }

    /** Every channel starts stopped, at zero, with prescaler 1. */
    constructor (irq: Irqs.Irq)
      ensures Valid() && fresh(channel) && this.irq == irq && ticks == 0
      ensures forall k :: 0 <= k < 4 ==> channel[k] == Channel(0, 0, 0, 1)
    {
      ticks := 0;
      channel := new Channel[4](_ => Channel(0, 0, 0, 1));
      this.irq := irq;
    }

    /** read(ch): the live counter. */
    function Read(ch: int): (v: Half)
      reads this, channel
      requires Valid() && 0 <= ch < 4
    {
      channel[ch].data
    }

    /** write(ch, value): the value is both the reload value and the current count. */
    method Write(ch: int, value: Half)
      requires Valid() && 0 <= ch < 4
      modifies channel
      ensures Valid()
      ensures channel[ch] == old(channel[ch]).(initial := value, data := value)
      ensures Read(ch) == value
      ensures forall k :: 0 <= k < 4 && k != ch ==> channel[k] == old(channel[k])
    {
      channel[ch] := channel[ch].(initial := value, data := value);
    }

    /** writeCnt(ch, value): store the control word and derive the prescaler from bits 0-1. */
    method WriteCnt(ch: int, value: Half)
      requires Valid() && 0 <= ch < 4
      modifies channel
      ensures Valid()
      ensures channel[ch] == old(channel[ch]).(cnt := value, prescalar := PrescalarOf(value))
      ensures forall k :: 0 <= k < 4 && k != ch ==> channel[k] == old(channel[k])
    {
      var p := 1;
      match value & 3 {
        case 0 => p := 1;
        case 1 => p := 64;
        case 2 => p := 256;
        case _ => p := 1024;
      }
      channel[ch] := channel[ch].(cnt := value, prescalar := p);
    }

    /** cascade(ch), in place. */
    method CascadeFrom(ch: int)
      requires Valid() && 0 <= ch < 4
      modifies channel
      ensures Valid()
      ensures channel[..] == Cascade(old(channel[..]), ch)
      decreases 3 - ch
    {
      if ch == 3 {
        return;
      }
      if Enabled(channel[ch + 1]) && Cascading(channel[ch + 1]) {
        channel[ch + 1] := channel[ch + 1].(data := channel[ch + 1].data + 1);
        CascadePreserves(old(channel[..]), ch);
        if channel[ch + 1].data == 0 {
          CascadeFrom(ch + 1);
        }
      }
    }

    /** One pass of tick()'s loop body for channel i. */
    method StepChannel(i: int)
      requires Valid() && 0 <= i < 4
      modifies channel, irq
      ensures Valid()
      ensures var st := Step(TickState(old(channel[..]), []), i, ticks);
              channel[..] == st.chs && irq.raised == old(irq.raised) + st.raised
      ensures irq.ie == old(irq.ie) && irq.iflags == old(irq.iflags) && irq.ime == old(irq.ime)
      ensures irq.cleared == old(irq.cleared)
    {
      ghost var st := TickState(channel[..], []);
      var c := channel[i];
      if Enabled(c) && !Cascading(c) && ticks % c.prescalar == 0 {
        channel[i] := c.(data := c.data + 1);
        if channel[i].data == 0 {
          channel[i] := c.(data := c.initial);
          ghost var reloaded := channel[..];
          assert reloaded == st.chs[i := c.(data := c.initial)];
          if IrqOnOverflow(c) {
            irq.Raise(Irqs.Timer0 + i);
          }
          assert irq.raised == old(irq.raised) + Step(st, i, ticks).raised;
          CascadeFrom(i);
          assert channel[..] == Cascade(reloaded, i);
        } else {
          assert channel[..] == st.chs[i := c.(data := c.data + 1)];
        }
      }
    }

    /** tick(): advance the tick counter, then let each channel count in order 0..3. */
    method Tick()
      requires Valid()
      modifies this, channel, irq
      ensures Valid() && ticks == old(ticks) + 1
      ensures var st := StepsFrom(TickState(old(channel[..]), []), 0, ticks);
              channel[..] == st.chs && irq.raised == old(irq.raised) + st.raised
      ensures irq.ie == old(irq.ie) && irq.iflags == old(irq.iflags) && irq.ime == old(irq.ime)
      ensures irq.cleared == old(irq.cleared)
    {
      ticks := ticks + 1;
      ghost var start := TickState(channel[..], []);
      ghost var done: seq<Irqs.Occasion> := [];
      var i := 0;
      while i < 4
        invariant 0 <= i <= 4 && Valid() && ticks == old(ticks) + 1
        invariant irq.raised == old(irq.raised) + done
        invariant StepsFrom(start, 0, ticks) == StepsFrom(TickState(channel[..], done), i, ticks)
        invariant irq.ie == old(irq.ie) && irq.iflags == old(irq.iflags) && irq.ime == old(irq.ime)
        invariant irq.cleared == old(irq.cleared)
      {
        ghost var before := channel[..];
        StepChannel(i);
        StepCarries(before, done, i, ticks);
        done := done + Step(TickState(before, []), i, ticks).raised;
        i := i + 1;
      }
    }
  }
}
