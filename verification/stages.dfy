/**
 * The seven display stages of the text sequence, the order in which their
 * timers move from one to the next, and how long each stage is shown.
 */
module Stages {

  /** The stages in declaration order; the enum gives them the values 0..6. */
  datatype Stage = Initial | SubHeadline | Listens | Learns | Acts | Tagline | Clear

  const StageCount: nat := 7

  /** Length of one full pass through all seven stages, in milliseconds. */
  const Period: nat := 36500

  /** The numeric value the enum assigns to a stage. */
  function Index(s: Stage): (i: nat)
    ensures i < StageCount
  {
    match s
    case Initial => 0
    case SubHeadline => 1
    case Listens => 2
    case Learns => 3
    case Acts => 4
    case Tagline => 5
    case Clear => 6
  }

  /** The stage carrying a given enum value. */
  function FromIndex(i: nat): (s: Stage)
    requires i < StageCount
    ensures Index(s) == i
  {
    if i == 0 then Initial
    else if i == 1 then SubHeadline
    else if i == 2 then Listens
    else if i == 3 then Learns
    else if i == 4 then Acts
    else if i == 5 then Tagline
    else Clear
  }

  /** Enum values and stages are in one-to-one correspondence. */
  lemma IndexRoundTrip(s: Stage, i: nat)
    requires i < StageCount
    ensures FromIndex(Index(s)) == s
    ensures Index(s) == i <==> s == FromIndex(i)
  {
  }

  /** The stage each stage's timer callback switches to. */
  function Next(s: Stage): (r: Stage)
    ensures Index(r) == (Index(s) + 1) % StageCount
  {
    match s
    case Initial => SubHeadline
    case SubHeadline => Listens
    case Listens => Learns
    case Learns => Acts
    case Acts => Tagline
    case Tagline => Clear
    case Clear => Initial
  }

  /** How long, in milliseconds, a stage's timer waits before it fires. */
  function Delay(s: Stage): (ms: nat)
    ensures 500 <= ms <= 15000
  {
    match s
    case Initial => 5000
    case SubHeadline => 10000
    case Listens => 2000
    case Learns => 2000
    case Acts => 2000
    case Tagline => 15000
    case Clear => 500
  }

  /** The stage reached from s after k timer firings. */
  function NextN(s: Stage, k: nat): Stage
    decreases k
  {
    if k == 0 then s else NextN(Next(s), k - 1)
  }

  /** k firings move the enum value k places forward, modulo seven. */
  lemma {:induction false} NextNIndex(s: Stage, k: nat)
    ensures Index(NextN(s, k)) == (Index(s) + k) % StageCount
    decreases k
  {
    if k > 0 {
      NextNIndex(Next(s), k - 1);
    }
  }

  /** Every stage comes back to itself after exactly seven firings, and not before. */
  lemma CycleLength(s: Stage, k: nat)
    ensures NextN(s, k) == s <==> k % StageCount == 0
  {
    NextNIndex(s, k);
    IndexRoundTrip(s, 0);
    IndexRoundTrip(NextN(s, k), 0);
  }

  /** Total time the k stages starting at s are shown for. */
  function Elapsed(s: Stage, k: nat): nat
    decreases k
  {
    if k == 0 then 0 else Delay(s) + Elapsed(Next(s), k - 1)
  }

  /** Adding one stage to a run adds that stage's delay at the end. */
  lemma {:induction false} ElapsedStep(s: Stage, k: nat)
    ensures Elapsed(s, k + 1) == Elapsed(s, k) + Delay(NextN(s, k))
    decreases k
  {
    if k > 0 {
      ElapsedStep(Next(s), k - 1);
    }
  }

  /** Whichever stage a pass starts from, the seven delays add up to one period. */
  lemma PassDuration(s: Stage)
    ensures Elapsed(s, StageCount) == Period
  {
  }

  /** When each stage starts and which stage it is, counting from the moment Initial is entered. */
  lemma StartTimes()
    ensures NextN(Initial, 1) == SubHeadline && Elapsed(Initial, 1) == 5000
    ensures NextN(Initial, 2) == Listens && Elapsed(Initial, 2) == 15000
    ensures NextN(Initial, 3) == Learns && Elapsed(Initial, 3) == 17000
    ensures NextN(Initial, 4) == Acts && Elapsed(Initial, 4) == 19000
    ensures NextN(Initial, 5) == Tagline && Elapsed(Initial, 5) == 21000
    ensures NextN(Initial, 6) == Clear && Elapsed(Initial, 6) == 36000
    ensures NextN(Initial, 7) == Initial && Elapsed(Initial, 7) == 36500
  {
  }
}
