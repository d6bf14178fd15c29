/**
 * Starry Sky Mystery: find the constellations of a fixed list by tapping the
 * sky. A tap, in percent of the sky's width and height, opens the quiz of the
 * first unfound constellation whose square of tolerance holds it; the right
 * answer records the constellation at the tapped point. Once every
 * constellation is recorded, the game completes 1000 ms later.
 */
module StarrySky {
  import opened Wrappers

  datatype Constellation = Constellation(name: string, question: string, options: seq<string>, answer: string, x: real, y: real)

  /** A discovered constellation and where it was tapped. */
  datatype Found = Found(name: string, x: real, y: real)

  /** The constellation under quiz and the tap that opened it. */
  datatype Active = Active(target: Constellation, clickX: real, clickY: real)

  datatype TapOutcome = Ignored | Hit(index: nat) | Miss

  const Constellations: seq<Constellation> := [
    Constellation("Taurus", "What does Taurus represent in Mithraism?",
                  ["The Bull of Heaven", "Messenger of the Moon", "God of War"], "The Bull of Heaven", 30.0, 40.0),
    Constellation("Canis Major", "What is Canis Major associated with?",
                  ["Guardian of the Bull", "Star of the King", "Solar Chariot"], "Guardian of the Bull", 70.0, 60.0)
  ]

  /** Half the side of the square around a constellation that a tap must fall in. */
  const Tolerance: real := 10.0

  function Abs(r: real): (a: real)
    ensures 0.0 <= a && (a == r || a == -r)
  {
    if r < 0.0 then -r else r
  }

  /** Strictly inside the axis-aligned square of half-side `Tolerance` around the constellation. */
  predicate Covers(c: Constellation, x: real, y: real)
  {
    Abs(c.x - x) < Tolerance && Abs(c.y - y) < Tolerance
  }

  /** `found.some(f => f.name === name)` */
  predicate Discovered(found: seq<Found>, name: string)
  {
    exists k :: 0 <= k < |found| && found[k].name == name
  }

  /** A tap at `(x, y)` may open this constellation's quiz. */
  predicate Selectable(c: Constellation, found: seq<Found>, x: real, y: real)
  {
    Covers(c, x, y) && !Discovered(found, c.name)
  }

  /** The search of `FindTarget`, from position `i` on. */
  function FindFrom(targets: seq<Constellation>, found: seq<Found>, x: real, y: real, i: nat): (r: Option<nat>)
    requires i <= |targets|
    ensures r.Some? ==> i <= r.value < |targets| && Selectable(targets[r.value], found, x, y)
    ensures r.Some? ==> forall j :: i <= j < r.value ==> !Selectable(targets[j], found, x, y)
    ensures r.None? ==> forall j :: i <= j < |targets| ==> !Selectable(targets[j], found, x, y)
    decreases |targets| - i
  {
    if i == |targets| then None
    else if Selectable(targets[i], found, x, y) then Some(i)
    else FindFrom(targets, found, x, y, i + 1)
  }

  /**
   * The hit test, `constellations.find(...)`: the first target in list order
   * that covers the tap and is not yet found; `None` when there is none.
   */
  function FindTarget(targets: seq<Constellation>, found: seq<Found>, x: real, y: real): (r: Option<nat>)
    ensures r.Some? ==> r.value < |targets| && Selectable(targets[r.value], found, x, y)
    ensures r.Some? ==> forall j :: 0 <= j < r.value ==> !Selectable(targets[j], found, x, y)
    ensures r.None? <==> forall j :: 0 <= j < |targets| ==> !Selectable(targets[j], found, x, y)
  {
    FindFrom(targets, found, x, y, 0)
  }

  /** The converse: the first selectable target is the one the hit test returns. */
  lemma FindTargetIsFirst(targets: seq<Constellation>, found: seq<Found>, x: real, y: real, i: nat)
    requires i < |targets| && Selectable(targets[i], found, x, y)
    requires forall j :: 0 <= j < i ==> !Selectable(targets[j], found, x, y)
    ensures FindTarget(targets, found, x, y) == Some(i)
  {
  }

  /** A tap exactly on an unfound target opens a quiz, that target's or an earlier one's. */
  lemma CentreTapHits(targets: seq<Constellation>, found: seq<Found>, i: nat)
    requires i < |targets| && !Discovered(found, targets[i].name)
    ensures FindTarget(targets, found, targets[i].x, targets[i].y).Some?
    ensures FindTarget(targets, found, targets[i].x, targets[i].y).value <= i
  {
    assert Selectable(targets[i], found, targets[i].x, targets[i].y);
  }

  /** The square is strict: a tap `Tolerance` away along either axis is outside it. */
  lemma BorderTapMisses(c: Constellation, d: real)
    ensures !Covers(c, c.x + Tolerance, c.y + d) && !Covers(c, c.x - Tolerance, c.y + d)
    ensures !Covers(c, c.x + d, c.y + Tolerance) && !Covers(c, c.x + d, c.y - Tolerance)
  {
  }

  /** The two shipped squares are disjoint, so the list order never decides between them. */
  lemma ShippedSquaresDisjoint(x: real, y: real)
    ensures !(Covers(Constellations[0], x, y) && Covers(Constellations[1], x, y))
  {
  }

  /** A tap on a shipped constellation's centre opens that constellation's quiz while it is unfound. */
  lemma ShippedCentreTap(found: seq<Found>, i: nat)
    requires i < |Constellations| && !Discovered(found, Constellations[i].name)
    ensures FindTarget(Constellations, found, Constellations[i].x, Constellations[i].y) == Some(i)
  {
    var c := Constellations[i];
    CentreTapHits(Constellations, found, i);
    var r := FindTarget(Constellations, found, c.x, c.y).value;
    if r < i {
      ShippedSquaresDisjoint(c.x, c.y);
    }
  }

  /** No name occurs twice. */
  predicate DistinctNames(found: seq<Found>)
  {
    forall i, j :: 0 <= i < j < |found| ==> found[i].name != found[j].name
  }

  /** The name of one of the shipped constellations. */
  predicate IsTargetName(name: string)
  {
    exists i :: 0 <= i < |Constellations| && Constellations[i].name == name
  }

  /** The shipped constellations have different names. */
  lemma ShippedNamesDistinct()
    ensures forall i, j :: 0 <= i < j < |Constellations| ==> Constellations[i].name != Constellations[j].name
  {
  }

  /** Pairwise different elements, each drawn from `u`, are at most `|u|` many. */
  lemma {:induction false} Pigeonhole(s: seq<string>, u: seq<string>)
    requires forall i, j :: 0 <= i < j < |s| ==> s[i] != s[j]
    requires forall i :: 0 <= i < |s| ==> s[i] in u
    ensures |s| <= |u|
  {
    if s != [] {
      var k :| 0 <= k < |u| && u[k] == s[0];
      var rest := u[..k] + u[k + 1..];
      var t := s[1..];
      forall i | 0 <= i < |t| ensures t[i] in rest {
        assert t[i] == s[i + 1] && t[i] != s[0];
        var m :| 0 <= m < |u| && u[m] == t[i];
        if m < k {
          assert rest[m] == t[i];
        } else {
          assert rest[m - 1] == t[i];
        }
      }
      Pigeonhole(t, rest);
    }
  }

  /** A record of distinct shipped names holds at most one entry per constellation. */
  lemma FoundBound(found: seq<Found>)
    requires DistinctNames(found)
    requires forall k :: 0 <= k < |found| ==> IsTargetName(found[k].name)
    ensures |found| <= |Constellations|
  {
    var s := seq(|found|, k requires 0 <= k < |found| => found[k].name);
    var u := seq(|Constellations|, i requires 0 <= i < |Constellations| => Constellations[i].name);
    forall i | 0 <= i < |s| ensures s[i] in u {
      var j :| 0 <= j < |Constellations| && Constellations[j].name == s[i];
      assert u[j] == s[i];
    }
    Pigeonhole(s, u);
  }

  class StarrySkyMystery {
    var found: seq<Found>
    var active: Option<Active>
    var showQuiz: bool
    var completed: bool
    var wrongClick: bool
    /** 600 ms timers still to clear the wrong-click flash. */
    var pendingFlashEnds: nat
    /** 1000 ms timers still to mark the game completed. */
    var pendingCompletions: nat

    /**
     * Names are recorded once each and are shipped names; the quiz is open
     * exactly while a constellation is active, and that one is unfound; and
     * completion is pending or done exactly when every constellation is found.
     */
    ghost predicate Valid()
      reads this
    {
      && DistinctNames(found)
      && (forall k :: 0 <= k < |found| ==> IsTargetName(found[k].name))
      && (showQuiz <==> active.Some?)
      && (active.Some? ==> active.value.target in Constellations && !Discovered(found, active.value.target.name))
      && pendingCompletions <= 1
      && !(completed && pendingCompletions == 1)
      && ((completed || pendingCompletions == 1) <==> |found| == |Constellations|)
    }

    /** `found` never outgrows the list of constellations. */
    lemma AtMostAllFound()
      requires Valid()
      ensures |found| <= |Constellations|
    {
      FoundBound(found);
    }

    constructor ()
      ensures Valid()
      ensures found == [] && active == None && !showQuiz && !completed && !wrongClick
      ensures pendingFlashEnds == 0 && pendingCompletions == 0
    {
      found := [];
      active := None;
      showQuiz := false;
      completed := false;
      wrongClick := false;
      pendingFlashEnds := 0;
      pendingCompletions := 0;
    }

    /**
     * `handlePress` on a tap at `(x, y)` in percent of the sky. Ignored while
     * the quiz is open or the game is completed. A hit makes that
     * constellation active with the tap point and opens its quiz; a miss
     * flashes the sky and queues the end of the flash.
     */
    method HandlePress(x: real, y: real) returns (outcome: TapOutcome)
      requires Valid()
      modifies this
      ensures Valid()
      ensures old(showQuiz) || old(completed) ==> outcome == Ignored && unchanged(this)
      ensures found == old(found) && completed == old(completed) && pendingCompletions == old(pendingCompletions)
      ensures !old(showQuiz) && !old(completed) && FindTarget(Constellations, old(found), x, y).Some? ==>
        var i := FindTarget(Constellations, old(found), x, y).value;
        && outcome == Hit(i)
        && active == Some(Active(Constellations[i], x, y)) && showQuiz
        && wrongClick == old(wrongClick) && pendingFlashEnds == old(pendingFlashEnds)
      ensures !old(showQuiz) && !old(completed) && FindTarget(Constellations, old(found), x, y).None? ==>
        && outcome == Miss
        && active == old(active) && showQuiz == old(showQuiz)
        && wrongClick && pendingFlashEnds == old(pendingFlashEnds) + 1
    {
      if showQuiz || completed {
        return Ignored;
      }
      var hit := FindTarget(Constellations, found, x, y);
      if hit.Some? {
        active := Some(Active(Constellations[hit.value], x, y));
        showQuiz := true;
        outcome := Hit(hit.value);
      } else {
        wrongClick := true;
        pendingFlashEnds := pendingFlashEnds + 1;
        outcome := Miss;
      }
    }

    /**
     * `handleAnswer`. Without an active constellation nothing happens. A
     * wrong option changes nothing and raises the hint (`hint`). The right
     * one records the constellation at the tap point, closes the quiz, and
     * queues completion exactly when that record makes `found` complete.
     */
    method HandleAnswer(option: string) returns (hint: bool)
      requires Valid()
      modifies this
      ensures Valid()
      ensures old(active) == None ==> !hint && unchanged(this)
      ensures old(active).Some? && option != old(active).value.target.answer ==> hint && unchanged(this)
      ensures old(active).Some? && option == old(active).value.target.answer ==>
        var a := old(active).value;
        && !hint
        && found == old(found) + [Found(a.target.name, a.clickX, a.clickY)]
        && active == None && !showQuiz
        && completed == old(completed) && wrongClick == old(wrongClick) && pendingFlashEnds == old(pendingFlashEnds)
        && pendingCompletions == old(pendingCompletions) + (if |found| == |Constellations| then 1 else 0)
    {
      if active == None {
        return false;
      }
      var a := active.value;
      if option != a.target.answer {
        return true;
      }
      var i :| 0 <= i < |Constellations| && Constellations[i] == a.target;
      var next := found + [Found(a.target.name, a.clickX, a.clickY)];
      assert IsTargetName(Constellations[i].name);
      FoundBound(next);
      if |found| + 1 == |Constellations| {
        pendingCompletions := pendingCompletions + 1;
      }
      found := next;
      showQuiz := false;
      active := None;
      hint := false;
    }

    /** A 600 ms timer ends the wrong-click flash, even if a later miss started another. */
    method EndFlash()
      requires Valid() && pendingFlashEnds > 0
      modifies this
      ensures Valid()
      ensures !wrongClick && pendingFlashEnds == old(pendingFlashEnds) - 1
      ensures found == old(found) && active == old(active) && showQuiz == old(showQuiz)
      ensures completed == old(completed) && pendingCompletions == old(pendingCompletions)
    {
      wrongClick := false;
      pendingFlashEnds := pendingFlashEnds - 1;
    }

    /** The 1000 ms completion timer: the game is completed, which it is only with every constellation found. */
    method Complete()
      requires Valid() && pendingCompletions > 0
      modifies this
      ensures Valid()
      ensures completed && pendingCompletions == 0 && |found| == |Constellations|
      ensures found == old(found) && active == old(active) && showQuiz == old(showQuiz)
      ensures wrongClick == old(wrongClick) && pendingFlashEnds == old(pendingFlashEnds)
    {
      completed := true;
      pendingCompletions := 0;
    }
  }

  /** A whole game: a hit, a wrong and a right answer, a tap on a found target, the last find, completion. */
  method PlayThroughScenario()
  {
    var sky := new StarrySkyMystery();
    ShippedCentreTap(sky.found, 0);
    var tap := sky.HandlePress(30.0, 40.0);
    assert tap == Hit(0);
    var hint := sky.HandleAnswer("God of War");
    assert hint && sky.showQuiz;
    hint := sky.HandleAnswer("The Bull of Heaven");
    assert !hint && sky.found == [Found("Taurus", 30.0, 40.0)] && sky.pendingCompletions == 0;
    assert sky.found[0].name == "Taurus";
    tap := sky.HandlePress(35.0, 45.0);
    assert tap == Miss && sky.wrongClick;
    sky.EndFlash();
    ShippedCentreTap(sky.found, 1);
    tap := sky.HandlePress(70.0, 60.0);
    assert tap == Hit(1);
    hint := sky.HandleAnswer("Guardian of the Bull");
    assert sky.pendingCompletions == 1 && !sky.completed;
    sky.Complete();
    tap := sky.HandlePress(70.0, 60.0);
    assert tap == Ignored && sky.completed;
  }
}
