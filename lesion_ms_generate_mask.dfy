/** The GenerateMask module of the LesionMSSimulator extension: the earlier lesion-load
    mask builder.  Each iteration draws a size category at random among the open ones,
    then a lesion of that category; a lesion is merged only if it keeps the load within
    the target and touches no lesion already placed.  `rand()` is replaced by a
    caller-supplied sequence of draws, one pair per iteration. */
module LesionMSGenerateMask {
  import opened Voxels
  import opened Text

  /** Number of lesions in each size category of the database. */
  const Info: seq<nat> := [586, 440, 150, 80, 23]
  /** Directory name of each category in the database. */
  const Names: seq<string> := ["5-20", "20-75", "75-200", "200-750", "750-more"]
  /** An oversize lesion smaller than this retires the highest open category. */
  const RetireBelow: nat := 1200

  /** The lesion label database: category and index to a label buffer. */
  type Database = (nat, nat) -> seq<Label>

  ghost predicate InSpace(db: Database, n: nat)
  {
    forall c: nat, i: nat :: |db(c, i)| == n
  }

  /** The two `rand()` results of one iteration: category, then lesion. */
  datatype Draw = Draw(size: nat, lesion: nat)

  function LesionPath(path: string, size: nat, lesion: nat): string
    requires size < 5
  {
    NumberedFile(path, Names[size], lesion, ".nii.gz")
  }

  /** Merge: wherever the lesion is > 0 the mask takes the lesion's label. */
  function MergeOverwrite(mask: seq<Label>, lesion: seq<Label>): seq<Label>
    requires |lesion| == |mask|
  {
    seq(|mask|, i requires 0 <= i < |mask| => if lesion[i] > 0 then lesion[i] else mask[i])
  }

  /** Without overlap the merge adds exactly the lesion's voxel count to the mask's. */
  lemma {:induction false} MergeOverwriteCount(mask: seq<Label>, lesion: seq<Label>)
    requires |lesion| == |mask| && !Overlaps(mask, lesion)
    ensures Nonzero(MergeOverwrite(mask, lesion)) == Nonzero(mask) + Nonzero(lesion)
  {
    if mask != [] {
      var k := |mask| - 1;
      assert MergeOverwrite(mask, lesion)[..k] == MergeOverwrite(mask[..k], lesion[..k]);
      forall i | 0 <= i < k
        ensures !(lesion[..k][i] > 0 && mask[..k][i] > 0)
      {
        assert lesion[..k][i] == lesion[i] && mask[..k][i] == mask[i];
      }
      MergeOverwriteCount(mask[..k], lesion[..k]);
    }
  }

  // ---------------------------------------------------------------------------
  // The selection loop as a function

  datatype Pick = Pick(size: nat, lesion: nat)

  /** Loop state: mask, running load, open categories, draws consumed, accepted lesions. */
  datatype State = State(mask: seq<Label>, load: nat, sizes: nat, used: nat, accepted: seq<Pick>)

  /** Why the loop ended.  `DrawsExhausted` is the model's fuel running out. */
  datatype Stop = LoadReached | SmallestTooLarge | DrawsExhausted

  datatype Outcome = Outcome(mask: seq<Label>, currentLoad: real, stop: Stop, accepted: seq<Pick>)

  datatype Next = Continue(next: State) | Halt(outcome: Outcome)

  function Initial(n: nat): State
  {
    State(Zeros(n), 0, 5, 0, [])
  }

  /** One iteration of the `while(currentLoad < desiredLoad)` loop.  Its precondition
      `sizes >= 1` is what makes `rand() % numberOfSizes` defined, and a continuing
      iteration re-establishes it. */
  function Step(s: State, desired: real, db: Database, draws: seq<Draw>): (r: Next)
    requires 1 <= s.sizes <= 5 && s.used <= |draws| && InSpace(db, |s.mask|)
    ensures r.Continue? ==> && 1 <= r.next.sizes <= s.sizes && s.sizes - 1 <= r.next.sizes
                            && r.next.used == s.used + 1 && |r.next.mask| == |s.mask|
  {
    if !(s.load as real < desired) then Halt(Outcome(s.mask, s.load as real, LoadReached, s.accepted))
    else if s.used == |draws| then Halt(Outcome(s.mask, s.load as real, DrawsExhausted, s.accepted))
    else
      var size := draws[s.used].size % s.sizes;
      var lesion := draws[s.used].lesion % Info[size];
      var candidate := db(size, lesion);
      var loadToAdd := Nonzero(candidate);
      var fits := !(s.load as real + loadToAdd as real > desired);
      // an oversize lesion below the threshold retires the highest open category
      var sizes := if !fits && loadToAdd < RetireBelow then s.sizes - 1 else s.sizes;
      if !fits && size == 0 then Halt(Outcome(s.mask, desired + 1.0, SmallestTooLarge, s.accepted))
      else if !Overlaps(s.mask, candidate) && fits then
        Continue(State(MergeOverwrite(s.mask, candidate), s.load + loadToAdd, sizes, s.used + 1,
                       s.accepted + [Pick(size, lesion)]))
      else
        Continue(s.(sizes := sizes, used := s.used + 1))
  }

  function Search(s: State, desired: real, db: Database, draws: seq<Draw>): Outcome
    requires 1 <= s.sizes <= 5 && s.used <= |draws| && InSpace(db, |s.mask|)
    decreases |draws| - s.used
  {
    match Step(s, desired, db, draws)
    case Halt(o) => o
    case Continue(s') => Search(s', desired, db, draws)
  }

  // ---------------------------------------------------------------------------
  // What the loop guarantees

  function Replay(mask: seq<Label>, db: Database, picks: seq<Pick>): (r: seq<Label>)
    requires InSpace(db, |mask|)
    ensures |r| == |mask|
  {
    if picks == [] then mask
    else
      var last := picks[|picks| - 1];
      MergeOverwrite(Replay(mask, db, picks[..|picks| - 1]), db(last.size, last.lesion))
  }

  /** Every pick names a database lesion and touched no voxel of the picks before it. */
  ghost predicate WellPlaced(n: nat, db: Database, picks: seq<Pick>)
    requires InSpace(db, n)
  {
    forall j :: 0 <= j < |picks| ==>
      && picks[j].size < 5 && picks[j].lesion < Info[picks[j].size]
      && !Overlaps(Replay(Zeros(n), db, picks[..j]), db(picks[j].size, picks[j].lesion))
  }

  ghost predicate Inv(s: State, n: nat, desired: real, db: Database)
  {
    && |s.mask| == n && InSpace(db, n)
    && s.load == Nonzero(s.mask)
    && (s.load == 0 || s.load as real <= desired)
    && s.mask == Replay(Zeros(n), db, s.accepted)
    && WellPlaced(n, db, s.accepted)
  }

  /** Voxels set in `before` keep their value in `after`. */
  ghost predicate Extends(before: seq<Label>, after: seq<Label>)
  {
    |before| == |after| && forall i :: 0 <= i < |before| && before[i] != 0 ==> after[i] == before[i]
  }

  ghost predicate Sound(o: Outcome, n: nat, desired: real, db: Database)
    requires InSpace(db, n)
  {
    && |o.mask| == n
    && o.mask == Replay(Zeros(n), db, o.accepted)
    && WellPlaced(n, db, o.accepted)
    && (Nonzero(o.mask) == 0 || Nonzero(o.mask) as real <= desired)
    && (o.stop == SmallestTooLarge ==> o.currentLoad == desired + 1.0)
    && (o.stop != SmallestTooLarge ==> o.currentLoad == Nonzero(o.mask) as real)
    && (o.stop == LoadReached ==> o.currentLoad >= desired)
  }

  lemma AcceptKeepsInv(s: State, n: nat, desired: real, db: Database, p: Pick, sizes: nat)
    requires Inv(s, n, desired, db)
    requires p.size < 5 && p.lesion < Info[p.size]
    requires !Overlaps(s.mask, db(p.size, p.lesion))
    requires s.load as real + Nonzero(db(p.size, p.lesion)) as real <= desired
    ensures var les := db(p.size, p.lesion);
      Inv(State(MergeOverwrite(s.mask, les), s.load + Nonzero(les), sizes, s.used + 1, s.accepted + [p]), n, desired, db)
    ensures Extends(s.mask, MergeOverwrite(s.mask, db(p.size, p.lesion)))
  {
    var les := db(p.size, p.lesion);
    var picks := s.accepted + [p];
    MergeOverwriteCount(s.mask, les);
    assert picks[..|picks| - 1] == s.accepted;
    assert Replay(Zeros(n), db, picks) == MergeOverwrite(s.mask, les);
    forall j | 0 <= j < |picks|
      ensures picks[j].size < 5 && picks[j].lesion < Info[picks[j].size]
      ensures !Overlaps(Replay(Zeros(n), db, picks[..j]), db(picks[j].size, picks[j].lesion))
    {
      if j < |s.accepted| {
        assert picks[..j] == s.accepted[..j];
      } else {
        assert picks[..j] == s.accepted;
      }
    }
  }

  lemma StepPreserves(s: State, n: nat, desired: real, db: Database, draws: seq<Draw>)
    requires 1 <= s.sizes <= 5 && s.used <= |draws|
    requires Inv(s, n, desired, db)
    ensures var r := Step(s, desired, db, draws);
      && (r.Continue? ==> Inv(r.next, n, desired, db) && Extends(s.mask, r.next.mask))
      && (r.Halt? ==> Sound(r.outcome, n, desired, db) && Extends(s.mask, r.outcome.mask))
  {
    if s.load as real < desired && s.used < |draws| {
      var size := draws[s.used].size % s.sizes;
      var lesion := draws[s.used].lesion % Info[size];
      var candidate := db(size, lesion);
      var loadToAdd := Nonzero(candidate);
      var fits := !(s.load as real + loadToAdd as real > desired);
      var sizes := if !fits && loadToAdd < RetireBelow then s.sizes - 1 else s.sizes;
      if !Overlaps(s.mask, candidate) && fits {
        AcceptKeepsInv(s, n, desired, db, Pick(size, lesion), sizes);
      }
    }
  }

  lemma {:induction false} SearchPreserves(s: State, n: nat, desired: real, db: Database, draws: seq<Draw>)
    requires 1 <= s.sizes <= 5 && s.used <= |draws|
    requires Inv(s, n, desired, db)
    ensures Sound(Search(s, desired, db, draws), n, desired, db)
    ensures Extends(s.mask, Search(s, desired, db, draws).mask)
    decreases |draws| - s.used
  {
    StepPreserves(s, n, desired, db, draws);
    match Step(s, desired, db, draws)
    case Halt(o) =>
    case Continue(s') =>
      SearchPreserves(s', n, desired, db, draws);
  }

  /** Properties of a whole run, from the zero mask: the mask is the accepted lesions
      copied in order with their own labels, no accepted lesion touches an earlier one,
      the number of lesion voxels never exceeds the desired load, and the counter equals
      that number unless the search ended on an oversize smallest-category lesion. */
  lemma GenerateMaskProperties(n: nat, desired: real, db: Database, draws: seq<Draw>)
    requires InSpace(db, n)
    ensures var o := Search(Initial(n), desired, db, draws);
      && |o.mask| == n
      && o.mask == Replay(Zeros(n), db, o.accepted)
      && WellPlaced(n, db, o.accepted)
      && (desired >= 0.0 ==> Nonzero(o.mask) as real <= desired)
      && (o.stop != SmallestTooLarge ==> o.currentLoad == Nonzero(o.mask) as real)
      && (o.stop == LoadReached ==> Nonzero(o.mask) as real >= desired)
  {
    NonzeroZeroIff(Zeros(n));
    SearchPreserves(Initial(n), n, desired, db, draws);
  }

  /** An oversize lesion below the threshold retires the highest open category, whichever
      category it was drawn from; one drawn from category 0 ends the loop. */
  lemma OversizeRule(s: State, desired: real, db: Database, draws: seq<Draw>)
    requires 1 <= s.sizes <= 5 && s.used < |draws| && InSpace(db, |s.mask|)
    requires s.load as real < desired
    ensures var size := draws[s.used].size % s.sizes;
      var candidate := db(size, draws[s.used].lesion % Info[size]);
      var oversize := s.load as real + Nonzero(candidate) as real > desired;
      var r := Step(s, desired, db, draws);
      && (oversize && size == 0 <==> r.Halt?)
      && (r.Continue? ==> r.next.sizes == if oversize && Nonzero(candidate) < RetireBelow then s.sizes - 1 else s.sizes)
  {
  }

  lemma NamesDistinct(c1: nat, c2: nat)
    requires c1 < 5 && c2 < 5 && Names[c1] == Names[c2]
    ensures c1 == c2
  {
  }

  /** Different lesions of the database are read from different files. */
  lemma LesionPathInjective(path: string, s1: nat, l1: nat, s2: nat, l2: nat)
    requires s1 < 5 && s2 < 5
    requires LesionPath(path, s1, l1) == LesionPath(path, s2, l2)
    ensures s1 == s2 && l1 == l2
  {
    assert SlashFree(Names[s1]) && SlashFree(Names[s2]);
    NumberedFileInjective(path, Names[s1], l1, Names[s2], l2, ".nii.gz");
    NamesDistinct(s1, s2);
  }

  // ---------------------------------------------------------------------------
  // The imperative loop

  /** Counts the voxels with label > 0 of the drawn lesion. */
  method CountLesion(lesion: seq<Label>) returns (loadToAdd: nat)
    ensures loadToAdd == Nonzero(lesion)
  {
    loadToAdd := 0;
    var i := 0;
    while i < |lesion|
      invariant 0 <= i <= |lesion|
      invariant loadToAdd == Nonzero(lesion[..i])
    {
      NonzeroStep(lesion, i);
      if lesion[i] > 0 {
        loadToAdd := loadToAdd + 1;
      }
      i := i + 1;
    }
    assert lesion[..i] == lesion;
  }

  /** Copies the lesion's nonzero labels into the mask in place; returns how many it wrote. */
  method AddLesion(mask: array<Label>, lesion: seq<Label>) returns (added: nat)
    requires |lesion| == mask.Length
    modifies mask
    ensures mask[..] == MergeOverwrite(old(mask[..]), lesion)
    ensures added == Nonzero(lesion)
  {
    ghost var before := mask[..];
    added := 0;
    var i := 0;
    while i < |lesion|
      invariant 0 <= i <= |lesion|
      invariant forall j :: 0 <= j < i ==> mask[j] == MergeOverwrite(before, lesion)[j]
      invariant forall j :: i <= j < |lesion| ==> mask[j] == before[j]
      invariant added == Nonzero(lesion[..i])
    {
      NonzeroStep(lesion, i);
      if lesion[i] > 0 {
        mask[i] := lesion[i];
        added := added + 1;
      }
      i := i + 1;
    }
    assert lesion[..i] == lesion;
  }

  /** The lesion-selection loop over a freshly allocated, zero-filled mask. */
  method Generate(n: nat, desired: real, db: Database, draws: seq<Draw>)
    returns (mask: array<Label>, currentLoad: real, stop: Stop, accepted: seq<Pick>)
    requires InSpace(db, n)
    ensures fresh(mask)
    ensures Outcome(mask[..], currentLoad, stop, accepted) == Search(Initial(n), desired, db, draws)
  {
    mask := new Label[n](_ => 0);
    assert mask[..] == Zeros(n);
    var numberOfSizes: nat := 5;
    currentLoad := 0.0;
    ghost var load: nat := 0;
    var used: nat := 0;
    accepted := [];
    stop := LoadReached;
    while currentLoad < desired
      invariant mask.Length == n && 1 <= numberOfSizes <= 5 && used <= |draws|
      invariant currentLoad == load as real && stop == LoadReached
      invariant Search(State(mask[..], load, numberOfSizes, used, accepted), desired, db, draws)
             == Search(Initial(n), desired, db, draws)
      decreases |draws| - used
    {
      ghost var s := State(mask[..], load, numberOfSizes, used, accepted);
      if used == |draws| {
        stop := DrawsExhausted;
        break;
      }
      var size := draws[used].size % numberOfSizes;
      var lesion := draws[used].lesion % Info[size];
      var candidate := db(size, lesion);
      var satisfyLesionLoad := true;
      var loadToAdd := CountLesion(candidate);
      if currentLoad + loadToAdd as real > desired {
        satisfyLesionLoad := false;
        if loadToAdd < RetireBelow {
          numberOfSizes := numberOfSizes - 1;
        }
        if size == 0 {
          currentLoad := desired + 1.0;
          stop := SmallestTooLarge;
          break;
        }
      }
      assert Step(s, desired, db, draws).Continue?;
      var wontOverlap := CheckOverlap(mask, candidate);
      if wontOverlap && satisfyLesionLoad {
        var added := AddLesion(mask, candidate);
        currentLoad := currentLoad + added as real;
        load := load + added;
        accepted := accepted + [Pick(size, lesion)];
      }
      used := used + 1;
      assert Step(s, desired, db, draws) == Continue(State(mask[..], load, numberOfSizes, used, accepted));
      assert Search(s, desired, db, draws)
          == Search(State(mask[..], load, numberOfSizes, used, accepted), desired, db, draws);
    }
  }
}
