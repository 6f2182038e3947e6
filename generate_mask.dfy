/** The GenerateMask command-line module: builds a lesion mask of a target lesion load by
    greedily drawing pre-segmented lesions from a database bucketed by lesion size, always
    from the largest category still open.  `rand()` is replaced by a caller-supplied
    sequence of draws; the lesion database is a function from (category, index) to a label
    buffer in the mask's space. */
module GenerateMask {
  import opened Voxels
  import opened Text

  /** Number of lesions in each size category of the database. */
  const Info: seq<nat> := [950, 944, 138, 117, 75]
  /** Largest lesion volume (mm^3) of each category. */
  const MaxSize: seq<nat> := [100, 500, 1000, 5000, 15000]
  /** Directory name of each category in the database. */
  const Names: seq<string> := ["50-100", "100-500", "500-1000", "1000-5000", "5000-more"]

  /** The lesion label database: category and index to a label buffer. */
  type Database = (nat, nat) -> seq<Label>

  /** Every database lesion lives in the `n`-voxel space of the mask. */
  ghost predicate InSpace(db: Database, n: nat)
  {
    forall c: nat, i: nat :: |db(c, i)| == n
  }

  /** The target load: millilitres to cubic millimetres. */
  function DesiredLoad(lesionLoad: real): (d: real)
    ensures d / 1000.0 == lesionLoad
  {
    lesionLoad * 1000.0
  }

  /** Database file of lesion `lesion` of category `size`. */
  function LesionPath(path: string, size: nat, lesion: nat): string
    requires size < 5
  {
    NumberedFile(path, Names[size], lesion, ".nii.gz")
  }

  // ---------------------------------------------------------------------------
  // Voxel-level operations on a lesion and the mask

  /** Merge: the lesion label is written wherever the lesion is > 0 and the mask still 0. */
  function MergeFill(mask: seq<Label>, lesion: seq<Label>): seq<Label>
    requires |lesion| == |mask|
  {
    seq(|mask|, i requires 0 <= i < |mask| => if lesion[i] > 0 && mask[i] == 0 then lesion[i] else mask[i])
  }

  /** Number of voxels a merge writes (each one increments the load counter). */
  function NewlyFilled(mask: seq<Label>, lesion: seq<Label>): nat
    requires |lesion| == |mask|
  {
    if mask == [] then 0
    else
      var k := |mask| - 1;
      NewlyFilled(mask[..k], lesion[..k]) + (if lesion[k] > 0 && mask[k] == 0 then 1 else 0)
  }

  lemma NewlyFilledStep(mask: seq<Label>, lesion: seq<Label>, i: nat)
    requires |lesion| == |mask| && i < |mask|
    ensures NewlyFilled(mask[..i + 1], lesion[..i + 1])
         == NewlyFilled(mask[..i], lesion[..i]) + (if lesion[i] > 0 && mask[i] == 0 then 1 else 0)
  {
    assert mask[..i + 1][..i] == mask[..i];
    assert lesion[..i + 1][..i] == lesion[..i];
  }

  /** The merge raises the nonzero count by exactly the number of voxels it writes,
      and it writes no more voxels than the lesion has. */
  lemma {:induction false} MergeFillCount(mask: seq<Label>, lesion: seq<Label>)
    requires |lesion| == |mask|
    ensures Nonzero(MergeFill(mask, lesion)) == Nonzero(mask) + NewlyFilled(mask, lesion)
    ensures NewlyFilled(mask, lesion) <= Nonzero(lesion)
  {
    if mask != [] {
      var k := |mask| - 1;
      MergeFillCount(mask[..k], lesion[..k]);
      assert MergeFill(mask, lesion)[..k] == MergeFill(mask[..k], lesion[..k]);
    }
  }

  /** A voxel set before the merge keeps its value; so no voxel ever reverts to 0. */
  lemma MergeFillKeeps(mask: seq<Label>, lesion: seq<Label>, i: nat)
    requires |lesion| == |mask| && i < |mask|
    ensures mask[i] != 0 ==> MergeFill(mask, lesion)[i] == mask[i]
    ensures MergeFill(mask, lesion)[i] != 0 ==> MergeFill(mask, lesion)[i] == mask[i] || MergeFill(mask, lesion)[i] == lesion[i]
  {
  }

  // ---------------------------------------------------------------------------
  // The selection loop as a function

  /** A lesion accepted into the mask. */
  datatype Pick = Pick(size: nat, lesion: nat)

  /** Loop state: the mask, the running load, the number of open categories, the rejection
      counter of the current category, the draws consumed and the accepted lesions. */
  datatype State = State(mask: seq<Label>, load: nat, sizes: nat, count: nat, used: nat, accepted: seq<Pick>)

  /** Why the loop ended.  `DrawsExhausted` is the model's fuel running out. */
  datatype Stop = LoadReached | CategoriesExhausted | SmallestTooLarge | DrawsExhausted

  /** Final mask, final value of the `currentLoad` counter, reason and accepted lesions. */
  datatype Outcome = Outcome(mask: seq<Label>, currentLoad: real, stop: Stop, accepted: seq<Pick>)

  function Initial(n: nat): State
  {
    State(Zeros(n), 0, 5, 0, 0, [])
  }

  /** Result of one loop iteration: go on with a new state, or leave the loop. */
  datatype Next = Continue(next: State) | Halt(outcome: Outcome)

  /** One iteration of the `while(currentLoad < desiredLoad)` loop. */
  function Step(s: State, desired: real, db: Database, draws: seq<nat>): (r: Next)
    requires 1 <= s.sizes <= 5 && s.used <= |draws| && InSpace(db, |s.mask|)
    ensures r.Continue? ==> && 1 <= r.next.sizes <= 5 && r.next.used <= |draws| && |r.next.mask| == |s.mask|
                            && (r.next.used == s.used + 1 || (r.next.used == s.used && r.next.sizes == s.sizes - 1))
  {
    if !(s.load as real < desired) then Halt(Outcome(s.mask, s.load as real, LoadReached, s.accepted))
    else
      var size := s.sizes - 1;
      if desired - s.load as real <= MaxSize[size] as real || s.count >= Info[size] then
        // retire the largest open category
        if s.sizes - 1 == 0 then Halt(Outcome(s.mask, s.load as real, CategoriesExhausted, s.accepted))
        else Continue(s.(sizes := s.sizes - 1, count := 0))
      else if s.used == |draws| then Halt(Outcome(s.mask, s.load as real, DrawsExhausted, s.accepted))
      else
        var lesion := draws[s.used] % Info[size];
        var candidate := db(size, lesion);
        var fits := !(s.load as real + Sum(candidate) as real > desired);
        if !fits && size == 0 then Halt(Outcome(s.mask, desired + 1.0, SmallestTooLarge, s.accepted))
        else
          var wontOverlap := size >= 4 || !Overlaps(s.mask, candidate);
          if wontOverlap && fits then
            Continue(s.(mask := MergeFill(s.mask, candidate), load := s.load + NewlyFilled(s.mask, candidate),
                        used := s.used + 1, accepted := s.accepted + [Pick(size, lesion)]))
          else
            Continue(s.(count := s.count + 1, used := s.used + 1))
  }

  /** The loop guard and the category rule: the loop leaves once the load is reached; below
      it, the largest open category is retired, with its rejection counter reset, when the
      remaining load fits in its largest lesion or the counter has reached the category's
      size, and the loop ends when no category is left. */
  lemma RetireRule(s: State, desired: real, db: Database, draws: seq<nat>)
    requires 1 <= s.sizes <= 5 && s.used <= |draws| && InSpace(db, |s.mask|)
    ensures var size := s.sizes - 1;
      var below := s.load as real < desired;
      var retire := desired - s.load as real <= MaxSize[size] as real || s.count >= Info[size];
      var r := Step(s, desired, db, draws);
      && (!below ==> r == Halt(Outcome(s.mask, s.load as real, LoadReached, s.accepted)))
      && (below && retire && s.sizes > 1 ==> r == Continue(s.(sizes := s.sizes - 1, count := 0)))
      && (below && retire && s.sizes == 1 ==> r == Halt(Outcome(s.mask, s.load as real, CategoriesExhausted, s.accepted)))
      && (below && !retire && s.used == |draws| ==> r == Halt(Outcome(s.mask, s.load as real, DrawsExhausted, s.accepted)))
  {
  }

  /** The draw rule: a lesion is drawn from the largest open category.  An oversize lesion
      of category 0 ends the loop with `currentLoad` set to one past the target; a lesion
      that is oversize or, below category 4, overlaps the mask is rejected and counted; any
      other is merged and recorded.  The category is kept and one draw is spent. */
  lemma DrawRule(s: State, desired: real, db: Database, draws: seq<nat>)
    requires 1 <= s.sizes <= 5 && s.used < |draws| && InSpace(db, |s.mask|)
    requires s.load as real < desired
    requires !(desired - s.load as real <= MaxSize[s.sizes - 1] as real || s.count >= Info[s.sizes - 1])
    ensures var size := s.sizes - 1;
      var lesion := draws[s.used] % Info[size];
      var candidate := db(size, lesion);
      var oversize := s.load as real + Sum(candidate) as real > desired;
      var overlap := size < 4 && Overlaps(s.mask, candidate);
      var r := Step(s, desired, db, draws);
      && (oversize && size == 0 <==> r.Halt?)
      && (r.Halt? ==> r.outcome == Outcome(s.mask, desired + 1.0, SmallestTooLarge, s.accepted))
      && (r.Continue? ==> r.next.sizes == s.sizes && r.next.used == s.used + 1)
      && (r.Continue? && (oversize || overlap) ==> r.next == s.(count := s.count + 1, used := s.used + 1))
      && (r.Continue? && !(oversize || overlap) ==>
            r.next == s.(mask := MergeFill(s.mask, candidate), load := s.load + NewlyFilled(s.mask, candidate),
                         used := s.used + 1, accepted := s.accepted + [Pick(size, lesion)]))
  {
  }

  /** The whole loop: iterate `Step` until it halts. */
  function Search(s: State, desired: real, db: Database, draws: seq<nat>): Outcome
    requires 1 <= s.sizes <= 5 && s.used <= |draws| && InSpace(db, |s.mask|)
    decreases |draws| - s.used, s.sizes
  {
    match Step(s, desired, db, draws)
    case Halt(o) => o
    case Continue(s') => Search(s', desired, db, draws)
  }

  // ---------------------------------------------------------------------------
  // What the loop guarantees

  /** The mask obtained by merging the picks, in order, into `mask`. */
  function Replay(mask: seq<Label>, db: Database, picks: seq<Pick>): (r: seq<Label>)
    requires InSpace(db, |mask|)
    ensures |r| == |mask|
  {
    if picks == [] then mask
    else
      var last := picks[|picks| - 1];
      MergeFill(Replay(mask, db, picks[..|picks| - 1]), db(last.size, last.lesion))
  }

  /** Every pick names a database lesion, and a pick from categories 0-3 touched no voxel
      set by the picks before it. */
  ghost predicate WellPlaced(n: nat, db: Database, picks: seq<Pick>)
    requires InSpace(db, n)
  {
    forall j :: 0 <= j < |picks| ==>
      && picks[j].size < 5 && picks[j].lesion < Info[picks[j].size]
      && (picks[j].size < 4 ==> !Overlaps(Replay(Zeros(n), db, picks[..j]), db(picks[j].size, picks[j].lesion)))
  }

  ghost predicate Inv(s: State, n: nat, desired: real, db: Database)
  {
    && |s.mask| == n && InSpace(db, n)
    && s.load == Nonzero(s.mask)
    && (s.load == 0 || s.load as real <= desired)
    && s.mask == Replay(Zeros(n), db, s.accepted)
    && WellPlaced(n, db, s.accepted)
  }

  lemma AcceptKeepsInv(s: State, n: nat, desired: real, db: Database, p: Pick)
    requires Inv(s, n, desired, db)
    requires p.size < 5 && p.lesion < Info[p.size]
    requires p.size < 4 ==> !Overlaps(s.mask, db(p.size, p.lesion))
    requires s.load as real + Sum(db(p.size, p.lesion)) as real <= desired
    ensures Inv(s.(mask := MergeFill(s.mask, db(p.size, p.lesion)), load := s.load + NewlyFilled(s.mask, db(p.size, p.lesion)),
                   accepted := s.accepted + [p]), n, desired, db)
  {
    var les := db(p.size, p.lesion);
    var picks := s.accepted + [p];
    MergeFillCount(s.mask, les);
    NonzeroAtMostSum(les);
    assert picks[..|picks| - 1] == s.accepted;
    assert Replay(Zeros(n), db, picks) == MergeFill(s.mask, les);
    forall j | 0 <= j < |picks|
      ensures picks[j].size < 5 && picks[j].lesion < Info[picks[j].size]
      ensures picks[j].size < 4 ==> !Overlaps(Replay(Zeros(n), db, picks[..j]), db(picks[j].size, picks[j].lesion))
    {
      if j < |s.accepted| {
        assert picks[..j] == s.accepted[..j];
      } else {
        assert picks[..j] == s.accepted;
      }
    }
  }

  /** Voxels set in `before` keep their value in `after`. */
  ghost predicate Extends(before: seq<Label>, after: seq<Label>)
  {
    |before| == |after| && forall i :: 0 <= i < |before| && before[i] != 0 ==> after[i] == before[i]
  }

  /** What a finished search guarantees about its outcome. */
  ghost predicate Sound(o: Outcome, n: nat, desired: real, db: Database)
    requires InSpace(db, n)
  {
    && |o.mask| == n
    && o.mask == Replay(Zeros(n), db, o.accepted)
    && WellPlaced(n, db, o.accepted)
    && (Nonzero(o.mask) == 0 || Nonzero(o.mask) as real <= desired)
    && (o.stop == SmallestTooLarge ==> o.currentLoad == desired + 1.0)
    && (o.stop != SmallestTooLarge ==> o.currentLoad == Nonzero(o.mask) as real)
    && (o.stop == LoadReached ==> o.currentLoad >= desired)
  }

  /** One iteration keeps the invariant, only fills empty voxels, and a halt is sound. */
  lemma StepPreserves(s: State, n: nat, desired: real, db: Database, draws: seq<nat>)
    requires 1 <= s.sizes <= 5 && s.used <= |draws|
    requires Inv(s, n, desired, db)
    ensures StepKeeps(s, n, desired, db, draws)
  {
    if !(s.load as real < desired) {
      HaltSound(s, n, desired, db, s.load as real, LoadReached);
    } else {
      var size := s.sizes - 1;
      if desired - s.load as real <= MaxSize[size] as real || s.count >= Info[size] {
        if s.sizes - 1 == 0 {
          HaltSound(s, n, desired, db, s.load as real, CategoriesExhausted);
        }
      } else if s.used == |draws| {
        HaltSound(s, n, desired, db, s.load as real, DrawsExhausted);
      } else {
        DrawPreserves(s, n, desired, db, draws);
      }
    }
  }

  /** The conclusion of `StepPreserves`: the next state keeps the invariant, a halt is
      sound, and either way only empty voxels were filled. */
  ghost predicate StepKeeps(s: State, n: nat, desired: real, db: Database, draws: seq<nat>)
    requires 1 <= s.sizes <= 5 && s.used <= |draws| && |s.mask| == n && InSpace(db, n)
  {
    var r := Step(s, desired, db, draws);
    && (r.Continue? ==> Inv(r.next, n, desired, db) && Extends(s.mask, r.next.mask))
    && (r.Halt? ==> Sound(r.outcome, n, desired, db) && Extends(s.mask, r.outcome.mask))
  }

  /** The iterations that draw a lesion: the drawn lesion is `candidate`. */
  ghost predicate Draws(s: State, desired: real, db: Database, draws: seq<nat>, candidate: seq<Label>)
  {
    && 1 <= s.sizes <= 5 && s.used < |draws| && s.load as real < desired
    && !(desired - s.load as real <= MaxSize[s.sizes - 1] as real || s.count >= Info[s.sizes - 1])
    && candidate == db(s.sizes - 1, draws[s.used] % Info[s.sizes - 1])
  }

  /** `StepPreserves` for an iteration that draws a lesion. */
  lemma DrawPreserves(s: State, n: nat, desired: real, db: Database, draws: seq<nat>)
    requires 1 <= s.sizes <= 5 && s.used < |draws| && Inv(s, n, desired, db) && s.load as real < desired
    requires !(desired - s.load as real <= MaxSize[s.sizes - 1] as real || s.count >= Info[s.sizes - 1])
    ensures StepKeeps(s, n, desired, db, draws)
  {
    var size := s.sizes - 1;
    var candidate := db(size, draws[s.used] % Info[size]);
    var fits := !(s.load as real + Sum(candidate) as real > desired);
    var wontOverlap := size >= 4 || !Overlaps(s.mask, candidate);
    if !fits && size == 0 {
      DrawTooLarge(s, n, desired, db, draws, candidate);
    } else if wontOverlap && fits {
      DrawAccepted(s, n, desired, db, draws, candidate);
    } else {
      DrawRejected(s, n, desired, db, draws, candidate);
    }
  }

  lemma DrawTooLarge(s: State, n: nat, desired: real, db: Database, draws: seq<nat>, candidate: seq<Label>)
    requires Draws(s, desired, db, draws, candidate) && Inv(s, n, desired, db)
    requires s.load as real + Sum(candidate) as real > desired && s.sizes == 1
    ensures Step(s, desired, db, draws) == Halt(Outcome(s.mask, desired + 1.0, SmallestTooLarge, s.accepted))
    ensures StepKeeps(s, n, desired, db, draws)
  {
    assert Step(s, desired, db, draws) == Halt(Outcome(s.mask, desired + 1.0, SmallestTooLarge, s.accepted));
    HaltSound(s, n, desired, db, desired + 1.0, SmallestTooLarge);
  }

  lemma DrawAccepted(s: State, n: nat, desired: real, db: Database, draws: seq<nat>, candidate: seq<Label>)
    requires Draws(s, desired, db, draws, candidate) && Inv(s, n, desired, db)
    requires !(s.load as real + Sum(candidate) as real > desired)
    requires s.sizes - 1 >= 4 || !Overlaps(s.mask, candidate)
    ensures StepKeeps(s, n, desired, db, draws)
  {
    var p := Pick(s.sizes - 1, draws[s.used] % Info[s.sizes - 1]);
    var merged := s.(mask := MergeFill(s.mask, candidate), load := s.load + NewlyFilled(s.mask, candidate),
                     accepted := s.accepted + [p]);
    var t := merged.(used := s.used + 1);
    AcceptedStep(s, desired, db, draws, candidate, t);
    AcceptKeepsInv(s, n, desired, db, p);
    CountersFree(merged, t, n, desired, db);
    assert Extends(s.mask, t.mask);
    ContinueKeeps(s, t, n, desired, db, draws);
  }

  /** An accepted draw merges the candidate, counts its new voxels and records the pick. */
  lemma AcceptedStep(s: State, desired: real, db: Database, draws: seq<nat>, candidate: seq<Label>, t: State)
    requires Draws(s, desired, db, draws, candidate) && InSpace(db, |s.mask|)
    requires !(s.load as real + Sum(candidate) as real > desired)
    requires s.sizes - 1 >= 4 || !Overlaps(s.mask, candidate)
    requires t == s.(mask := MergeFill(s.mask, candidate), load := s.load + NewlyFilled(s.mask, candidate),
                     used := s.used + 1, accepted := s.accepted + [Pick(s.sizes - 1, draws[s.used] % Info[s.sizes - 1])])
    ensures Step(s, desired, db, draws) == Continue(t)
  {
  }

  /** A step that continues into an invariant state extending the mask keeps the invariant. */
  lemma ContinueKeeps(s: State, t: State, n: nat, desired: real, db: Database, draws: seq<nat>)
    requires 1 <= s.sizes <= 5 && s.used <= |draws| && |s.mask| == n && InSpace(db, n)
    requires Step(s, desired, db, draws) == Continue(t)
    requires Inv(t, n, desired, db) && Extends(s.mask, t.mask)
    ensures StepKeeps(s, n, desired, db, draws)
  {
  }

  lemma DrawRejected(s: State, n: nat, desired: real, db: Database, draws: seq<nat>, candidate: seq<Label>)
    requires Draws(s, desired, db, draws, candidate) && Inv(s, n, desired, db)
    requires !(s.load as real + Sum(candidate) as real > desired && s.sizes == 1)
    requires !((s.sizes - 1 >= 4 || !Overlaps(s.mask, candidate)) && !(s.load as real + Sum(candidate) as real > desired))
    ensures Step(s, desired, db, draws) == Continue(s.(count := s.count + 1, used := s.used + 1))
    ensures StepKeeps(s, n, desired, db, draws)
  {
    assert Step(s, desired, db, draws) == Continue(s.(count := s.count + 1, used := s.used + 1));
    CountersFree(s, s.(count := s.count + 1, used := s.used + 1), n, desired, db);
  }

  /** The invariant does not depend on the category, rejection and draw counters. */
  lemma CountersFree(s: State, t: State, n: nat, desired: real, db: Database)
    requires Inv(s, n, desired, db) && t.mask == s.mask && t.load == s.load && t.accepted == s.accepted
    ensures Inv(t, n, desired, db) && Extends(s.mask, t.mask)
  {
  }

  /** Leaving the loop with the mask and the accepted lesions of an invariant state is sound. */
  lemma HaltSound(s: State, n: nat, desired: real, db: Database, currentLoad: real, stop: Stop)
    requires Inv(s, n, desired, db)
    requires stop == SmallestTooLarge ==> currentLoad == desired + 1.0
    requires stop != SmallestTooLarge ==> currentLoad == s.load as real
    requires stop == LoadReached ==> currentLoad >= desired
    ensures Sound(Outcome(s.mask, currentLoad, stop, s.accepted), n, desired, db)
    ensures Extends(s.mask, s.mask)
  {
  }

  /** The loop preserves the invariant and only ever fills empty voxels. */
  lemma {:induction false} SearchPreserves(s: State, n: nat, desired: real, db: Database, draws: seq<nat>)
    requires 1 <= s.sizes <= 5 && s.used <= |draws|
    requires Inv(s, n, desired, db)
    ensures Sound(Search(s, desired, db, draws), n, desired, db)
    ensures Extends(s.mask, Search(s, desired, db, draws).mask)
    decreases |draws| - s.used, s.sizes
  {
    StepPreserves(s, n, desired, db, draws);
    match Step(s, desired, db, draws)
    case Halt(o) =>
    case Continue(s') =>
      SearchPreserves(s', n, desired, db, draws);
  }

  /** Properties of a whole run, from the zero mask: the mask is the accepted lesions merged
      in order, categories 0-3 never overlap earlier lesions, the number of lesion voxels
      never exceeds the desired load, and the counter equals that number unless the search
      ended on an oversize smallest-category lesion. */
  lemma GenerateMaskProperties(n: nat, desired: real, db: Database, draws: seq<nat>)
    requires InSpace(db, n)
    ensures var o := Search(Initial(n), desired, db, draws);
      && |o.mask| == n
      && o.mask == Replay(Zeros(n), db, o.accepted)
      && WellPlaced(n, db, o.accepted)
      && (desired >= 0.0 ==> Nonzero(o.mask) as real <= desired)
      && (o.stop != SmallestTooLarge ==> o.currentLoad == Nonzero(o.mask) as real)
      && (o.stop == LoadReached ==> Nonzero(o.mask) as real >= desired)
  {
    NonzeroZeroIff(Zeros(n));
    SearchPreserves(Initial(n), n, desired, db, draws);
  }

  lemma NamesDistinct(c1: nat, c2: nat)
    requires c1 < 5 && c2 < 5 && Names[c1] == Names[c2]
    ensures c1 == c2
  {
  }

  /** Different lesions of the database are read from different files. */
  lemma LesionPathInjective(path: string, s1: nat, l1: nat, s2: nat, l2: nat)
    requires s1 < 5 && s2 < 5
    requires LesionPath(path, s1, l1) == LesionPath(path, s2, l2)
    ensures s1 == s2 && l1 == l2
  {
    assert SlashFree(Names[s1]) && SlashFree(Names[s2]);
    NumberedFileInjective(path, Names[s1], l1, Names[s2], l2, ".nii.gz");
    NamesDistinct(s1, s2);
  }

  // ---------------------------------------------------------------------------
  // The imperative loop

  /** Merges a lesion into the mask in place; returns how many voxels it wrote. */
  method AddLesion(mask: array<Label>, lesion: seq<Label>) returns (added: nat)
    requires |lesion| == mask.Length
    modifies mask
    ensures mask[..] == MergeFill(old(mask[..]), lesion)
    ensures added == NewlyFilled(old(mask[..]), lesion)
  {
    ghost var before := mask[..];
    added := 0;
    var i := 0;
    while i < |lesion|
      invariant 0 <= i <= |lesion|
      invariant forall j :: 0 <= j < i ==> mask[j] == MergeFill(before, lesion)[j]
      invariant forall j :: i <= j < |lesion| ==> mask[j] == before[j]
      invariant added == NewlyFilled(before[..i], lesion[..i])
    {
      NewlyFilledStep(before, lesion, i);
      if lesion[i] > 0 && mask[i] == 0 {
        mask[i] := lesion[i];
        added := added + 1;
      }
      i := i + 1;
    }
    assert before[..i] == before && lesion[..i] == lesion;
  }

  /** The lesion-selection loop over a freshly allocated, zero-filled mask. */
  method Generate(n: nat, desired: real, db: Database, draws: seq<nat>)
    returns (mask: array<Label>, currentLoad: real, stop: Stop, accepted: seq<Pick>)
    requires InSpace(db, n)
    ensures fresh(mask)
    ensures Outcome(mask[..], currentLoad, stop, accepted) == Search(Initial(n), desired, db, draws)
  {
    mask := new Label[n](_ => 0);
    assert mask[..] == Zeros(n);
    var numberOfSizes: nat := 5;
    currentLoad := 0.0;
    ghost var load: nat := 0;
    var count: nat := 0;
    var used: nat := 0;
    accepted := [];
    stop := LoadReached;
    while currentLoad < desired
      invariant mask.Length == n && 1 <= numberOfSizes <= 5 && used <= |draws|
      invariant currentLoad == load as real && stop == LoadReached
      invariant Search(State(mask[..], load, numberOfSizes, count, used, accepted), desired, db, draws)
             == Search(Initial(n), desired, db, draws)
      decreases |draws| - used, numberOfSizes
    {
      ghost var s := State(mask[..], load, numberOfSizes, count, used, accepted);
      var size := numberOfSizes - 1;
      var okToSearch := true;
      if desired - currentLoad <= MaxSize[size] as real || count >= Info[size] {
        numberOfSizes := numberOfSizes - 1;
        count := 0;
        if numberOfSizes == 0 {
          stop := CategoriesExhausted;
          SearchEnds(s, Outcome(mask[..], currentLoad, stop, accepted), desired, db, draws);
          break;
        }
        okToSearch := false;
        SearchOnward(s, State(mask[..], load, numberOfSizes, count, used, accepted), desired, db, draws);
      }
      if okToSearch {
        if used == |draws| {
          stop := DrawsExhausted;
          SearchEnds(s, Outcome(mask[..], currentLoad, stop, accepted), desired, db, draws);
          break;
        }
        var tooLarge;
        currentLoad, load, count, used, accepted, tooLarge := TryLesion(mask, desired, db, draws, size, currentLoad, load, count, used, accepted);
        if tooLarge {
          stop := SmallestTooLarge;
          SearchEnds(s, Outcome(mask[..], currentLoad, stop, accepted), desired, db, draws);
          break;
        }
        SearchOnward(s, State(mask[..], load, numberOfSizes, count, used, accepted), desired, db, draws);
      }
    }
    if stop == LoadReached {
      SearchEnds(State(mask[..], load, numberOfSizes, count, used, accepted),
                 Outcome(mask[..], currentLoad, stop, accepted), desired, db, draws);
    }
  }

  /** One draw of the loop: a lesion of category `size` is drawn and merged into the mask
      when it fits the load and, for categories 0-3, overlaps nothing; an oversize lesion
      of the smallest category ends the search.  This is one `Step` of the state. */
  method TryLesion(mask: array<Label>, desired: real, db: Database, draws: seq<nat>, size: nat,
                   currentLoad: real, ghost load: nat, count: nat, used: nat, accepted: seq<Pick>)
    returns (currentLoad': real, ghost load': nat, count': nat, used': nat, accepted': seq<Pick>, tooLarge: bool)
    requires InSpace(db, mask.Length) && size < 5 && used < |draws| && currentLoad == load as real && currentLoad < desired
    requires !(desired - currentLoad <= MaxSize[size] as real || count >= Info[size])
    modifies mask
    ensures !tooLarge ==> currentLoad' == load' as real
    ensures Step(State(old(mask[..]), load, size + 1, count, used, accepted), desired, db, draws)
         == if tooLarge then Halt(Outcome(mask[..], currentLoad', SmallestTooLarge, accepted'))
            else Continue(State(mask[..], load', size + 1, count', used', accepted'))
  {
    currentLoad', load', count', used', accepted', tooLarge := currentLoad, load, count, used, accepted, false;
    var lesion := draws[used] % Info[size];
    var candidate := db(size, lesion);
    var loadToAdd := Sum(candidate);
    var satisfyLesionLoad := true;
    if currentLoad + loadToAdd as real > desired {
      satisfyLesionLoad := false;
      if size == 0 {
        currentLoad' := desired + 1.0;
        tooLarge := true;
        return;
      }
    }
    var wontOverlap := true;
    if size < 4 {
      wontOverlap := CheckOverlap(mask, candidate);
    }
    if wontOverlap && satisfyLesionLoad {
      var added := AddLesion(mask, candidate);
      currentLoad' := currentLoad + added as real;
      load' := load + added;
      accepted' := accepted + [Pick(size, lesion)];
    } else {
      count' := count + 1;
    }
    used' := used + 1;
  }

  lemma SearchOnward(s: State, s': State, desired: real, db: Database, draws: seq<nat>)
    requires 1 <= s.sizes <= 5 && s.used <= |draws| && InSpace(db, |s.mask|)
    requires Step(s, desired, db, draws) == Continue(s')
    ensures Search(s, desired, db, draws) == Search(s', desired, db, draws)
  {
  }

  lemma SearchEnds(s: State, o: Outcome, desired: real, db: Database, draws: seq<nat>)
    requires 1 <= s.sizes <= 5 && s.used <= |draws| && InSpace(db, |s.mask|)
    requires Step(s, desired, db, draws) == Halt(o)
    ensures Search(s, desired, db, draws) == o
  {
  }
}
