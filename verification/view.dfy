/**
 * What the component renders for a stage: the mutually exclusive stage
 * guards inside the presence wrapper and the React key of every keyed
 * element, built as "<name>-<cycle>".
 */
module View {
  import opened Stages
  import Decimal

  /** The keyed elements of the markup, in source order. */
  datatype Slot =
    | Placeholder      // empty, fully transparent block of the Initial stage
    | SubHeadlineText
    | ListensHeading
    | LearnsHeading
    | ActsHeading
    | TaglineTitle
    | TaglineSubtitle

  datatype Element = Element(slot: Slot, key: string)

  /** The constant part of each element's key. */
  function Name(slot: Slot): string
  {
    match slot
    case Placeholder => "initial"
    case SubHeadlineText => "subheadline"
    case ListensHeading => "listens"
    case LearnsHeading => "learns"
    case ActsHeading => "acts"
    case TaglineTitle => "tagline-title"
    case TaglineSubtitle => "tagline-subtitle"
  }

  /** The stage whose guard encloses a slot. */
  function Owner(slot: Slot): Stage
  {
    match slot
    case Placeholder => Initial
    case SubHeadlineText => SubHeadline
    case ListensHeading => Listens
    case LearnsHeading => Learns
    case ActsHeading => Acts
    case TaglineTitle => Tagline
    case TaglineSubtitle => Tagline
  }

  /** The key of a slot's element in a given cycle. */
  function Key(slot: Slot, cycle: nat): (k: string)
    ensures |k| > |Name(slot)| + 1 && k[..|Name(slot)|] == Name(slot)
    ensures k[|Name(slot)|] == '-'
    ensures Decimal.IsDigits(k[|Name(slot)| + 1..])
    ensures Decimal.Read(k[|Name(slot)| + 1..]) == cycle
    ensures k[|Name(slot)| + 1] == '0' <==> cycle == 0
    ensures cycle == 0 ==> k == Name(slot) + "-0"
  {
    var k := Name(slot) + "-" + Decimal.Show(cycle);
    assert k[|Name(slot)| + 1..] == Decimal.Show(cycle);
    Decimal.ReadShow(cycle);
    k
  }

  /** A visible element: everything except the placeholder, which animates to opacity 0. */
  predicate Visible(e: Element)
  {
    e.slot != Placeholder
  }

  /** The stages tested by the six guards, in source order; Clear has no guard. */
  const Guards: seq<Stage> := [Initial, SubHeadline, Listens, Learns, Acts, Tagline]

  /** The elements rendered when a guard for stage g holds. */
  function Branch(g: Stage, cycle: nat): seq<Element>
  {
    match g
    case Initial => [Element(Placeholder, Key(Placeholder, cycle))]
    case SubHeadline => [Element(SubHeadlineText, Key(SubHeadlineText, cycle))]
    case Listens => [Element(ListensHeading, Key(ListensHeading, cycle))]
    case Learns => [Element(LearnsHeading, Key(LearnsHeading, cycle))]
    case Acts => [Element(ActsHeading, Key(ActsHeading, cycle))]
    case Tagline =>
      [Element(TaglineTitle, Key(TaglineTitle, cycle)),
       Element(TaglineSubtitle, Key(TaglineSubtitle, cycle))]
    case Clear => []
  }

  /** Number of guards in gs that hold for stage s. */
  function Taken(s: Stage, gs: seq<Stage>): (n: nat)
    ensures n <= |gs|
    ensures n == 0 <==> s !in gs
  {
    if gs == [] then 0 else (if gs[0] == s then 1 else 0) + Taken(s, gs[1..])
  }

  /** The output of the guards gs for stage s, concatenated in order. */
  function RenderGuards(s: Stage, cycle: nat, gs: seq<Stage>): (r: seq<Element>)
    ensures forall e <- r :: Owner(e.slot) == s && e.key == Key(e.slot, cycle)
    ensures r == [] <==> s !in gs || s == Clear
  {
    if gs == [] then []
    else (if gs[0] == s then Branch(s, cycle) else []) + RenderGuards(s, cycle, gs[1..])
  }

  /** What the component renders in stage s during cycle `cycle`. */
  function Render(s: Stage, cycle: nat): (r: seq<Element>)
    ensures forall e <- r :: Owner(e.slot) == s && e.key == Key(e.slot, cycle)
    ensures r == [] <==> s == Clear
  {
    RenderGuards(s, cycle, Guards)
  }

  /** The guards exclude each other: exactly one holds, none for Clear. */
  lemma ExactlyOneBranch(s: Stage)
    ensures Taken(s, Guards) == if s == Clear then 0 else 1
  {
  }

  /** When at most one guard holds, the output is that guard's branch, or nothing. */
  lemma {:induction false} RenderGuardsSingle(s: Stage, cycle: nat, gs: seq<Stage>)
    requires Taken(s, gs) <= 1
    ensures RenderGuards(s, cycle, gs) == if Taken(s, gs) == 1 then Branch(s, cycle) else []
    decreases |gs|
  {
    if gs != [] {
      RenderGuardsSingle(s, cycle, gs[1..]);
    }
  }

  /** A stage renders exactly the elements of its own branch. */
  lemma RenderIsBranch(s: Stage, cycle: nat)
    ensures Render(s, cycle) == Branch(s, cycle)
  {
    ExactlyOneBranch(s);
    RenderGuardsSingle(s, cycle, Guards);
  }

  /** Visible text appears exactly in the five stages between Initial and Clear. */
  lemma VisibleContent(s: Stage, cycle: nat)
    ensures (exists e <- Render(s, cycle) :: Visible(e)) <==> s != Initial && s != Clear
  {
    RenderIsBranch(s, cycle);
    if s != Initial && s != Clear {
      assert Visible(Render(s, cycle)[0]);
    }
  }

  /** A key splits uniquely at its last dash when what follows is a digit string. */
  lemma {:induction false} SplitAtLastDash(p1: string, d1: string, p2: string, d2: string)
    requires Decimal.IsDigits(d1) && Decimal.IsDigits(d2)
    requires p1 + "-" + d1 == p2 + "-" + d2
    ensures p1 == p2 && d1 == d2
  {
    var k := p1 + "-" + d1;
    assert k[|p1|] == '-' && k[|p2|] == '-';
    assert forall j :: |p1| < j < |k| ==> k[j] == d1[j - |p1| - 1];
    assert forall j :: |p2| < j < |k| ==> k[j] == d2[j - |p2| - 1];
    assert |p1| == |p2|;
    assert p1 == k[..|p1|];
    assert p2 == k[..|p2|];
    assert d1 == k[|p1| + 1..];
    assert d2 == k[|p2| + 1..];
  }

  /** Distinct slots have distinct names. */
  lemma NameInjective(a: Slot, b: Slot)
    ensures Name(a) == Name(b) <==> a == b
  {
  }

  /** Keys are injective over (slot, cycle). */
  lemma KeyInjective(a: Slot, c: nat, b: Slot, d: nat)
    ensures Key(a, c) == Key(b, d) <==> a == b && c == d
  {
    if Key(a, c) == Key(b, d) {
      SplitAtLastDash(Name(a), Decimal.Show(c), Name(b), Decimal.Show(d));
      NameInjective(a, b);
      Decimal.ShowInjective(c, d);
    }
  }

  /** Two rendered elements share a key exactly when they are the same element of the same stage and cycle. */
  lemma KeysIdentify(s1: Stage, c1: nat, s2: Stage, c2: nat)
    ensures forall e1 <- Render(s1, c1), e2 <- Render(s2, c2) ::
      e1.key == e2.key <==> e1 == e2 && s1 == s2 && c1 == c2
  {
    forall e1 <- Render(s1, c1), e2 <- Render(s2, c2)
      ensures e1.key == e2.key <==> e1 == e2 && s1 == s2 && c1 == c2
    {
      KeyInjective(e1.slot, c1, e2.slot, c2);
    }
  }

  /** The keys within a single render are pairwise distinct. */
  lemma KeysDistinctInRender(s: Stage, cycle: nat, i: nat, j: nat)
    requires i < j < |Render(s, cycle)|
    ensures Render(s, cycle)[i].key != Render(s, cycle)[j].key
  {
    RenderIsBranch(s, cycle);
    KeyInjective(TaglineTitle, cycle, TaglineSubtitle, cycle);
  }
}
