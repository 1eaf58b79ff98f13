/** The score of the standard sentence matcher: four weights that measure how
    much of the user's input and of the reference sentence were considered and
    matched, plus a binary tree of the capturing groups collected on the way. */
module StandardScores {
  import opened Wrappers

  // Coefficients of the linear score.
  const UM: real := 2.0
  const UW: real := -1.1
  const RM: real := 2.0
  const RW: real := -1.1

  /** A value a typed capture can hold. Strings are told apart from every other
      type; any other value is tagged with the name of its type. */
  datatype Value = StringValue(text: string) | OtherValue(typeName: string, data: int)

  /** The type a caller asks a capturing group to have. */
  datatype Kind = StringKind | OtherKind(typeName: string)

  predicate IsOfKind(v: Value, k: Kind) {
    match v
    case StringValue(_) => k == StringKind
    case OtherValue(t, _) => k == OtherKind(t)
  }

  /** A leaf of the capture tree: a typed value, or a range of the user input. */
  datatype NamedCapture =
    | Capture(name: string, value: Value)
    | StringRangeCapture(name: string, start: int, end: int)

  /** The untyped capture tree: null, a named capture, a pair of subtrees, or
      an object of any other type, which the lookup refuses. */
  datatype CaptureTree =
    | Null
    | Leaf(capture: NamedCapture)
    | Pair(first: CaptureTree, second: CaptureTree)
    | Unexpected

  /** The exceptions of the capture lookup. */
  datatype CaptureError = UnexpectedType | WrongType | IndexOutOfBounds

  /** Another kind of score, seen only through its value in [0, 1]. */
  datatype AnyScore = Standard(standard: StandardScore) | Other(in01: real)

  datatype StandardScore = StandardScore(
    userMatched: real,
    userWeight: real,
    refMatched: real,
    refWeight: real,
    capturingGroups: CaptureTree)
  {
    /** Every matched unit of weight earns 0.9 net, every unit considered but
        not matched costs 1.1. */
    function Score(): (r: real)
      ensures r == 0.9 * (userMatched + refMatched)
                   - 1.1 * ((userWeight - userMatched) + (refWeight - refMatched))
    {
      UM * userMatched + UW * userWeight + RM * refMatched + RW * refWeight
    }

    /** Harmonic mean of the matched fractions of both sides; zero whenever
        one of the four weights is not positive. */
    function ScoreIn01Range(): (r: real)
      ensures r == 0.0 <==> (userMatched <= 0.0 || userWeight <= 0.0
                             || refMatched <= 0.0 || refWeight <= 0.0)
      ensures r >= 0.0
      ensures userMatched <= userWeight && refMatched <= refWeight ==> r <= 1.0
    {
      if userMatched <= 0.0 || userWeight <= 0.0 || refMatched <= 0.0 || refWeight <= 0.0 then
        0.0
      else
        var a := userWeight / userMatched;
        var b := refWeight / refMatched;
        assert a > 0.0 && b > 0.0;
        assert userMatched <= userWeight ==> a >= 1.0;
        assert refMatched <= refWeight ==> b >= 1.0;
        2.0 / (a + b)
    }

    /** A standard score is compared with another standard score by Score,
        and with a score of another kind by the value in [0, 1]. */
    function IsBetterThan(other: AnyScore): (r: bool)
      ensures other.Standard? ==> (r <==> Score() > other.standard.Score())
      ensures other.Other? ==> (r <==> ScoreIn01Range() > other.in01)
      ensures other.Other? && other.in01 >= 1.0
              && userMatched <= userWeight && refMatched <= refWeight
              ==> !r
      ensures other.Other? && other.in01 < 0.0 ==> r
    {
      match other
      case Standard(s) => Score() > s.Score()
      case Other(v) => ScoreIn01Range() > v
    }

    /** Lookup of a capturing group by type: null when the name is absent, an
        error when the group holds something of another type. */
    function GetCapturingGroup(userInput: string, name: string, requested: Kind)
      : (r: Result<Option<Value>, CaptureError>)
      ensures r == Success(None) <==> Explore(capturingGroups, name) == Success(None)
      ensures Explore(capturingGroups, name).Failure? ==> r == Failure(UnexpectedType)
      ensures r.Success? && r.value.Some? ==> IsOfKind(r.value.value, requested)
      ensures r.Success? && r.value.Some? ==>
        match Explore(capturingGroups, name).value.value
        case Capture(_, v) => r.value.value == v
        case StringRangeCapture(_, s, e) =>
          0 <= s <= e <= |userInput| && r.value.value == StringValue(userInput[s..e])
      ensures forall v :: Explore(capturingGroups, name) == Success(Some(Capture(name, v)))
                && IsOfKind(v, requested)
                ==> r == Success(Some(v))
      ensures forall v :: Explore(capturingGroups, name) == Success(Some(Capture(name, v)))
                && !IsOfKind(v, requested)
                ==> r == Failure(WrongType)
      ensures forall s, e :: Explore(capturingGroups, name) == Success(Some(StringRangeCapture(name, s, e)))
                && requested != StringKind
                ==> r == Failure(WrongType)
      ensures forall s, e :: Explore(capturingGroups, name) == Success(Some(StringRangeCapture(name, s, e)))
                && requested == StringKind && !(0 <= s <= e <= |userInput|)
                ==> r == Failure(IndexOutOfBounds)
      ensures forall s, e :: Explore(capturingGroups, name) == Success(Some(StringRangeCapture(name, s, e)))
                && 0 <= s <= e <= |userInput| && requested == StringKind
                ==> r == Success(Some(StringValue(userInput[s..e])))
    {
      match Explore(capturingGroups, name)
      case Failure(e) => Failure(e)
      case Success(None) => Success(None)
      case Success(Some(found)) =>
        match found
        case Capture(_, v) =>
          if IsOfKind(v, requested) then Success(Some(v)) else Failure(WrongType)
        case StringRangeCapture(_, s, e) =>
          if requested != StringKind then Failure(WrongType)
          else if 0 <= s <= e <= |userInput| then Success(Some(StringValue(userInput[s..e])))
          else Failure(IndexOutOfBounds)
    }

    /** Combination of two scores: the weights add up and the capture trees
        are joined, this one before the other. */
    function Plus(other: StandardScore): (r: StandardScore)
      ensures r.Score() == Score() + other.Score()
      ensures Leaves(r.capturingGroups) == Leaves(capturingGroups) + Leaves(other.capturingGroups)
      ensures capturingGroups.Null? ==> r.capturingGroups == other.capturingGroups
      ensures other.capturingGroups.Null? ==> r.capturingGroups == capturingGroups
    {
      StandardScore(
        userMatched + other.userMatched,
        userWeight + other.userWeight,
        refMatched + other.refMatched,
        refWeight + other.refWeight,
        if capturingGroups.Null? then other.capturingGroups
        else if other.capturingGroups.Null? then capturingGroups
        else Pair(capturingGroups, other.capturingGroups))
    }

    /** Adds weights only; the capture tree is kept. */
    function PlusWeights(um: real, uw: real, rm: real, rw: real): (r: StandardScore)
      ensures r.capturingGroups == capturingGroups
      ensures r.Score() == Score() + StandardScore(um, uw, rm, rw, Null).Score()
      ensures r == Plus(StandardScore(um, uw, rm, rw, Null))
    {
      StandardScore(
        userMatched + um, userWeight + uw, refMatched + rm, refWeight + rw, capturingGroups)
    }

    /** Adds weights and one more capturing group, which goes to the right of
        every group already collected. */
    function PlusCapture(um: real, uw: real, rm: real, rw: real, group: CaptureTree)
      : (r: StandardScore)
      requires !group.Null?
      ensures Leaves(r.capturingGroups) == Leaves(capturingGroups) + Leaves(group)
      ensures capturingGroups.Null? ==> r.capturingGroups == group
      ensures !capturingGroups.Null? ==> r.capturingGroups == Pair(capturingGroups, group)
      ensures r.Score() == Score() + StandardScore(um, uw, rm, rw, Null).Score()
      ensures r == Plus(StandardScore(um, uw, rm, rw, group))
    {
      StandardScore(
        userMatched + um, userWeight + uw, refMatched + rm, refWeight + rw,
        if capturingGroups.Null? then group else Pair(capturingGroups, group))
    }
  }

  const EMPTY: StandardScore := StandardScore(0.0, 0.0, 0.0, 0.0, Null)

  /** The better of an optional current score and a candidate; on a tie the
      current one is kept. */
  function KeepBest(m1: Option<StandardScore>, m2: StandardScore): (r: StandardScore)
    ensures m1.None? ==> r == m2
    ensures r == m2 || (m1.Some? && r == m1.value)
    ensures r.Score() >= m2.Score()
    ensures m1.Some? ==> r.Score() >= m1.value.Score()
    ensures m1.Some? && m2.Score() <= m1.value.Score() ==> r == m1.value
  {
    if m1.None? || m2.Score() > m1.value.Score() then m2 else m1.value
  }

  /* ----- Capture lookup ----- */

  /** Depth-first, left-before-right search for the capture named `name`. */
  function Explore(node: CaptureTree, name: string): (r: Result<Option<NamedCapture>, CaptureError>)
    ensures r.Failure? ==> r.error == UnexpectedType
    ensures r.Success? && r.value.Some? ==> r.value.value.name == name
  {
    match node
    case Null => Success(None)
    case Pair(a, b) =>
      var x := Explore(a, name);
      if x.Failure? || x.value.Some? then x else Explore(b, name)
    case Leaf(c) => if c.name == name then Success(Some(c)) else Success(None)
    case Unexpected => Failure(UnexpectedType)
  }

  /** A leaf of the tree as a depth-first walk meets it. */
  datatype Node = CaptureLeaf(capture: NamedCapture) | ForeignLeaf

  /** The leaves of a capture tree in depth-first, left-before-right order. */
  function Leaves(t: CaptureTree): seq<Node> {
    match t
    case Null => []
    case Leaf(c) => [CaptureLeaf(c)]
    case Pair(a, b) => Leaves(a) + Leaves(b)
    case Unexpected => [ForeignLeaf]
  }

  /** A leaf that a search for `name` walks past. */
  predicate Passes(n: Node, name: string) {
    n.CaptureLeaf? && n.capture.name != name
  }

  /** Reference search over the leaf order: the first leaf that is not walked
      past decides the result. */
  function FirstHit(leaves: seq<Node>, name: string): (r: Result<Option<NamedCapture>, CaptureError>)
    ensures r == Success(None) <==> forall i :: 0 <= i < |leaves| ==> Passes(leaves[i], name)
    ensures r.Success? && r.value.Some? ==>
      r.value.value.name == name &&
      exists i :: 0 <= i < |leaves| && leaves[i] == CaptureLeaf(r.value.value)
                  && forall j :: 0 <= j < i ==> Passes(leaves[j], name)
    ensures r.Failure? ==>
      r.error == UnexpectedType &&
      exists i :: 0 <= i < |leaves| && leaves[i] == ForeignLeaf
                  && forall j :: 0 <= j < i ==> Passes(leaves[j], name)
  {
    if |leaves| == 0 then Success(None)
    else
      var rest := FirstHit(leaves[1..], name);
      match leaves[0]
      case ForeignLeaf => Failure(UnexpectedType)
      case CaptureLeaf(c) =>
        if c.name == name then Success(Some(c))
        else
          assert forall i :: 1 <= i < |leaves| ==> leaves[i] == leaves[1..][i - 1];
          assert rest.Success? && rest.value.Some? ==>
            exists i :: 1 <= i < |leaves| && leaves[i] == CaptureLeaf(rest.value.value)
                        && forall j :: 0 <= j < i ==> Passes(leaves[j], name);
          assert rest.Failure? ==>
            exists i :: 1 <= i < |leaves| && leaves[i] == ForeignLeaf
                        && forall j :: 0 <= j < i ==> Passes(leaves[j], name);
          rest
  }

  lemma {:induction false} FirstHitAppend(s1: seq<Node>, s2: seq<Node>, name: string)
    ensures FirstHit(s1 + s2, name)
            == if FirstHit(s1, name) == Success(None) then FirstHit(s2, name) else FirstHit(s1, name)
  {
    if |s1| > 0 {
      assert (s1 + s2)[1..] == s1[1..] + s2;
      FirstHitAppend(s1[1..], s2, name);
    } else {
      assert s1 + s2 == s2;
    }
  }

  /** The tree walk finds exactly what the reference search over the leaf
      order finds: the first capture named `name`, unless an object of an
      unexpected type comes first. */
  lemma {:induction false} ExploreIsFirstHit(t: CaptureTree, name: string)
    ensures Explore(t, name) == FirstHit(Leaves(t), name)
  {
    match t
    case Null =>
    case Leaf(c) =>
    case Unexpected =>
    case Pair(a, b) =>
      ExploreIsFirstHit(a, name);
      ExploreIsFirstHit(b, name);
      FirstHitAppend(Leaves(a), Leaves(b), name);
  }

  /* ----- Laws of the score algebra ----- */

  /** A lookup in a combination searches the left operand first. */
  lemma PlusLookup(a: StandardScore, b: StandardScore, name: string)
    ensures Explore(a.Plus(b).capturingGroups, name)
            == if Explore(a.capturingGroups, name) == Success(None)
               then Explore(b.capturingGroups, name)
               else Explore(a.capturingGroups, name)
  {
  }

  /** EMPTY is a left and a right identity of Plus. */
  lemma EmptyIsIdentity(s: StandardScore)
    ensures EMPTY.Plus(s) == s
    ensures s.Plus(EMPTY) == s
  {
  }

  /** Plus is associative in the weights and in the leaf order, so a lookup
      does not depend on how a sum was bracketed, although the tree does. */
  lemma PlusAssociative(a: StandardScore, b: StandardScore, c: StandardScore, name: string)
    ensures a.Plus(b).Plus(c).Score() == a.Plus(b.Plus(c)).Score()
    ensures Leaves(a.Plus(b).Plus(c).capturingGroups) == Leaves(a.Plus(b.Plus(c)).capturingGroups)
    ensures Explore(a.Plus(b).Plus(c).capturingGroups, name)
            == Explore(a.Plus(b.Plus(c)).capturingGroups, name)
  {
  }

  /** A group added with PlusCapture is found by name only when no group
      collected before it has that name; otherwise the earlier one wins. */
  lemma PlusCaptureLookup(s: StandardScore, um: real, uw: real, rm: real, rw: real,
                            group: CaptureTree, name: string)
    requires !group.Null?
    ensures Explore(s.PlusCapture(um, uw, rm, rw, group).capturingGroups, name)
            == if Explore(s.capturingGroups, name) == Success(None)
               then Explore(group, name)
               else Explore(s.capturingGroups, name)
  {
  }

  /** A span captured into a score without an earlier group of the same
      name is read back as the text of the user input it covers. */
  lemma CapturedSpanRoundTrip(s: StandardScore, um: real, uw: real, rm: real, rw: real,
                              userInput: string, name: string, start: int, end: int)
    requires Explore(s.capturingGroups, name) == Success(None)
    requires 0 <= start <= end <= |userInput|
    ensures s.PlusCapture(um, uw, rm, rw, Leaf(StringRangeCapture(name, start, end)))
              .GetCapturingGroup(userInput, name, StringKind)
            == Success(Some(StringValue(userInput[start..end])))
  {
    PlusCaptureLookup(s, um, uw, rm, rw, Leaf(StringRangeCapture(name, start, end)), name);
  }

  /** Between two standard scores isBetterThan is the strict order of Score. */
  lemma IsBetterThanStrictOrder(a: StandardScore, b: StandardScore, c: StandardScore)
    ensures !a.IsBetterThan(Standard(a))
    ensures a.IsBetterThan(Standard(b)) ==> !b.IsBetterThan(Standard(a))
    ensures a.IsBetterThan(Standard(b)) && b.IsBetterThan(Standard(c)) ==> a.IsBetterThan(Standard(c))
  {
  }

  /** keepBest replaces the current score exactly when the candidate is
      better than it, and keeping a score against itself changes nothing. */
  lemma KeepBestIsBetterThan(current: StandardScore, candidate: StandardScore)
    ensures KeepBest(Some(current), candidate)
            == if candidate.IsBetterThan(Standard(current)) then candidate else current
    ensures KeepBest(Some(current), current) == current
  {
  }

  /** Bounds of 2 / (a + b) for positive a and b. */
  lemma HarmonicOfPositives(a: real, b: real)
    requires a > 0.0 && b > 0.0
    ensures 2.0 / (a + b) <= 2.0 / a
    ensures 2.0 / (a + b) <= 2.0 / b
    ensures a <= b ==> 2.0 / (a + b) >= 1.0 / b
    ensures b <= a ==> 2.0 / (a + b) >= 1.0 / a
  {
  }

  /** The harmonic mean lies between the smaller matched fraction and twice
      either of them, so a poorly matched side pulls the value down. */
  lemma HarmonicMeanBounds(s: StandardScore)
    requires s.userMatched > 0.0 && s.userWeight > 0.0 && s.refMatched > 0.0 && s.refWeight > 0.0
    ensures s.ScoreIn01Range() <= 2.0 * (s.userMatched / s.userWeight)
    ensures s.ScoreIn01Range() <= 2.0 * (s.refMatched / s.refWeight)
    ensures s.ScoreIn01Range() >= s.userMatched / s.userWeight
            || s.ScoreIn01Range() >= s.refMatched / s.refWeight
  {
    var a := s.userWeight / s.userMatched;
    var b := s.refWeight / s.refMatched;
    Reciprocal(s.userMatched, s.userWeight);
    Reciprocal(s.refMatched, s.refWeight);
    assert s.ScoreIn01Range() == 2.0 / (a + b);
    HarmonicOfPositives(a, b);
  }

  /** The reciprocal of a positive quotient. */
  lemma Reciprocal(x: real, y: real)
    requires x > 0.0 && y > 0.0
    ensures y / x > 0.0
    ensures 1.0 / (y / x) == x / y
    ensures 2.0 / (y / x) == 2.0 * (x / y)
  {
  }
}
