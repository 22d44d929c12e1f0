/** What an accepted journey shows of the Run's visits, and what moving between accepted journeys keeps. */
module RunJourney {
  import opened Options
  import opened JourneySchemas

  // ---- one journey is a window ----

  /** A chain of visits: each under its own ordinal, no session and no visit id twice. */
  ghost predicate IsChain(chain: map<int, Association>) {
    && (forall k :: k in chain ==> chain[k].visit.Some? && chain[k].visit.value.ordinal == k)
    && forall k, l :: k in chain && l in chain && k != l ==>
        chain[k].session != chain[l].session && chain[k].visit.value.id != chain[l].visit.value.id
  }

  function At(chain: map<int, Association>, k: int): Option<Association> {
    if k in chain then Some(chain[k]) else None
  }

  /** j shows the visit it stands on, the ones beside it, and the last one. */
  ghost predicate IsWindow(j: Journey, chain: map<int, Association>) {
    var o, count := Ordinal(j.path), Ordinal(j.current);
    && o <= count
    && (forall k :: k in chain <==> 1 <= k <= count && (k == count || o - 1 <= k <= o + 1))
    && At(chain, o) == Some(j.path)
    && At(chain, count) == Some(j.current)
    && j.predecessor == At(chain, o - 1)
    && j.successor == At(chain, o + 1)
  }

  /** The rows of the journey under their ordinals. */
  function Shown(j: Journey, k: int): Option<Association> {
    if j.path.visit.Some? && Ordinal(j.path) == k then Some(j.path)
    else if j.current.visit.Some? && Ordinal(j.current) == k then Some(j.current)
    else if j.predecessor.Some? && j.predecessor.value.visit.Some? && Ordinal(j.predecessor.value) == k then j.predecessor
    else if j.successor.Some? && j.successor.value.visit.Some? && Ordinal(j.successor.value) == k then j.successor
    else None
  }

  function ChainOf(j: Journey): map<int, Association> {
    map k: int | 1 <= k <= Ordinal(j.current) && Shown(j, k).Some? :: Shown(j, k).value
  }

  lemma PairOf(j: Journey, i: nat, k: nat)
    requires AllMaterialised(Rows(j)) && ServerPairs(Rows(j))
    requires i < |Rows(j)| && k < |Rows(j)|
    ensures ServerPair(Rows(j)[i], Rows(j)[k])
  {
    if i < k {
      assert ServerPair(Rows(j)[i], Rows(j)[k]);
    } else if k < i {
      assert ServerPair(Rows(j)[k], Rows(j)[i]);
    }
  }

  lemma ShownIsRow(j: Journey, k: int) returns (i: nat)
    requires Shown(j, k).Some?
    ensures i < |Rows(j)| && Rows(j)[i] == Shown(j, k).value && Ordinal(Rows(j)[i]) == k && Rows(j)[i].visit.Some?
  {
    NamedRows(j);
    if Shown(j, k) == Some(j.path) {
      i := 0;
    } else if Shown(j, k) == Some(j.current) {
      i := 1;
    } else if Shown(j, k) == j.predecessor {
      i := 2;
    } else {
      i := |Rows(j)| - 1;
    }
  }

  lemma ChainIsWindow(j: Journey)
    requires j.current.visit.Some? && j.path.visit.Some? && j.session == j.path.session
    requires 1 <= Ordinal(j.path) && ServerChain(j)
    ensures IsChain(ChainOf(j)) && IsWindow(j, ChainOf(j))
  {
    NamedRows(j);
    forall k, l | k in ChainOf(j) && l in ChainOf(j) && k != l
      ensures ChainOf(j)[k].session != ChainOf(j)[l].session
      ensures ChainOf(j)[k].visit.value.id != ChainOf(j)[l].visit.value.id
    {
      var a := ShownIsRow(j, k);
      var b := ShownIsRow(j, l);
      PairOf(j, a, b);
    }
  }

  lemma WindowIsChain(j: Journey, chain: map<int, Association>)
    requires j.current.visit.Some? && j.path.visit.Some? && j.session == j.path.session
    requires IsChain(chain) && IsWindow(j, chain)
    ensures 1 <= Ordinal(j.path) && ServerChain(j)
  {
    NamedRows(j);
    assert AllMaterialised(Rows(j));
    forall i, k | 0 <= i < k < |Rows(j)| ensures ServerPair(Rows(j)[i], Rows(j)[k]) {
      assert At(chain, Ordinal(Rows(j)[i])) == Some(Rows(j)[i]);
      assert At(chain, Ordinal(Rows(j)[k])) == Some(Rows(j)[k]);
    }
  }

  /** The neighbour and pairwise checks hold exactly of the windows onto a chain. */
  lemma WindowIff(j: Journey)
    requires j.current.visit.Some? && j.path.visit.Some? && j.session == j.path.session
    ensures 1 <= Ordinal(j.path) && ServerChain(j) <==> exists chain :: IsChain(chain) && IsWindow(j, chain)
  {
    if 1 <= Ordinal(j.path) && ServerChain(j) {
      ChainIsWindow(j);
    }
    if chain :| IsChain(chain) && IsWindow(j, chain) {
      WindowIsChain(j, chain);
    }
  }

  /** An accepted materialised journey: a window whose length and ending are its version. */
  lemma AcceptedIsWindow(j: Journey)
    requires ServerAccepts(j) && j.current.visit.Some?
    ensures IsChain(ChainOf(j)) && IsWindow(j, ChainOf(j))
    ensures 2 <= Count(j) <= 3
    ensures j.version == Count(j) + 2 + (if j.lifecycle.Active? then 0 else 1)
    ensures j.lifecycle.Completed? <==> j.completion.Some?
  {
    NamedRows(j);
    assert ServerAssociation(Rows(j)[0]);
    ChainIsWindow(j);
  }

  // ---- moving to a neighbour ----

  /** The row of one journey that should be the other. */
  function Toward(from: Journey, to: Journey): Option<Association> {
    if from.predecessor.Some? && from.predecessor.value.session == to.session then from.predecessor else from.successor
  }

  predicate Neighbour(from: Journey, to: Journey) {
    && ClientAccepts(from)
    && ClientAccepts(to)
    && Toward(from, to) == Some(to.path)
    && Toward(to, from) == Some(from.path)
    && from.current == to.current
    && from.version == to.version
    && from.lifecycle == to.lifecycle
    && (from.completion.Some? ==> to.completion == from.completion)
    && from.context == to.context
  }

  /** The completion is compared in one direction only, and still the check is symmetric. */
  lemma NeighbourSymmetric(from: Journey, to: Journey)
    ensures Neighbour(from, to) <==> Neighbour(to, from)
  {
  }

  lemma MaterialisedWhenMoving(from: Journey, to: Journey)
    requires Neighbour(from, to)
    ensures from.path.visit.Some? && from.current.visit.Some? && 2 <= Count(from) <= 3
  {
    NamedRows(from);
    assert ClientAssociation(Rows(from)[0]);
    assert ClientAssociation(Rows(from)[1]);
  }

  /** A move goes to the previous or the next visit, whichever row names it. */
  lemma MovesOneStep(from: Journey, to: Journey)
    requires Neighbour(from, to)
    ensures Ordinal(to.path) == Ordinal(from.path) + (if Toward(from, to) == from.predecessor then -1 else 1)
    ensures (Toward(from, to) == from.predecessor) != (Toward(to, from) == to.predecessor)
  {
    MaterialisedWhenMoving(from, to);
    NeighbourSymmetric(from, to);
    MaterialisedWhenMoving(to, from);
  }

  /** Which visits a journey shows: every one from the second on, and the first unless it stands on the third. */
  lemma AlwaysShown(j: Journey, k: int)
    requires ClientAccepts(j) && j.current.visit.Some?
    ensures Shown(j, k).Some? <==> 1 <= k <= Count(j) && (k >= 2 || Ordinal(j.path) != 3)
    ensures Shown(j, k).Some? ==> Ordinal(Shown(j, k).value) == k
  {
    NamedRows(j);
    assert ClientAssociation(Rows(j)[0]);
    assert ClientAssociation(Rows(j)[1]);
    assert Rows(j)[0].visit.None? <==> Ordinal(j.current) == 1;
    assert Rows(j)[1].visit.None? <==> Ordinal(j.current) == 1;
  }

  lemma ShownIs(j: Journey, row: Association)
    requires ClientAccepts(j) && row in Rows(j) && row.visit.Some?
    ensures Shown(j, Ordinal(row)) == Some(row)
  {
    NamedRows(j);
    var i :| 0 <= i < |Rows(j)| && Rows(j)[i] == row;
    var k := Ordinal(row);
    assert Shown(j, k).Some?;
    var l := ShownIsRow(j, k);
    if i < l {
      assert ClientPair(Rows(j)[i], Rows(j)[l]);
    } else if l < i {
      assert ClientPair(Rows(j)[l], Rows(j)[i]);
    }
  }

  /** Neighbours show the same chain wherever both show it. */
  lemma NeighboursAgree(from: Journey, to: Journey, k: int)
    requires Neighbour(from, to)
    requires Shown(from, k).Some? && Shown(to, k).Some?
    ensures Shown(from, k) == Shown(to, k)
  {
    MaterialisedWhenMoving(from, to);
    NeighbourSymmetric(from, to);
    MaterialisedWhenMoving(to, from);
    MovesOneStep(from, to);
    AlwaysShown(from, k);
    AlwaysShown(to, k);
    NamedRows(from);
    NamedRows(to);
    if k == Count(from) {
      ShownIs(from, from.current);
      ShownIs(to, to.current);
    } else if k == Ordinal(from.path) {
      ShownIs(from, from.path);
      ShownIs(to, from.path);
    } else {
      ShownIs(from, to.path);
      ShownIs(to, to.path);
    }
  }

  // ---- any sequence of moves ----

  predicate Walk(js: seq<Journey>) {
    forall i :: 0 <= i < |js| - 1 ==> Neighbour(js[i], js[i + 1])
  }

  lemma {:induction false} WalkKeeps(js: seq<Journey>, a: nat, b: nat)
    requires Walk(js) && a <= b < |js|
    ensures js[b].current == js[a].current
    ensures js[b].version == js[a].version && js[b].lifecycle == js[a].lifecycle
    ensures js[b].context == js[a].context && (a < b ==> js[b].runId == js[a].runId)
    ensures js[b].completion == js[a].completion
    decreases b - a
  {
    if a < b {
      assert Neighbour(js[a], js[a + 1]);
      WalkKeeps(js, a + 1, b);
    }
  }

  /** Every visit keeps its place, as long as the walk does not lose sight of it on the way. */
  lemma {:induction false} WalkKeepsChain(js: seq<Journey>, a: nat, b: nat, k: int)
    requires Walk(js) && a <= b < |js|
    requires forall i :: a <= i <= b ==> Shown(js[i], k).Some?
    ensures Shown(js[b], k) == Shown(js[a], k)
    decreases b - a
  {
    if a < b {
      NeighboursAgree(js[a], js[a + 1], k);
      WalkKeepsChain(js, a + 1, b, k);
    }
  }

  /** From the second visit on, no walk changes a place in the chain. */
  lemma LaterVisitsKept(js: seq<Journey>, a: nat, b: nat, k: int)
    requires Walk(js) && a <= b < |js| && a < |js| - 1
    requires 2 <= k <= Count(js[a])
    ensures Shown(js[a], k).Some? && Shown(js[b], k) == Shown(js[a], k)
  {
    forall i | a <= i <= b ensures Shown(js[i], k).Some? {
      WalkKeeps(js, a, i);
      if i < |js| - 1 {
        MaterialisedWhenMoving(js[i], js[i + 1]);
      } else {
        NeighbourSymmetric(js[i - 1], js[i]);
        MaterialisedWhenMoving(js[i], js[i - 1]);
      }
      AlwaysShown(js[i], k);
    }
    WalkKeepsChain(js, a, b, k);
  }

  // ---- the first visit is forgotten on the third ----

  /** The same Run, seen from its third visit. */
  function OnThird(j: Journey): Journey {
    j.(
      session := j.current.session,
      path := j.current,
      predecessor := Some(j.path),
      successor := None,
      offer := None,
      arrival := Some(Arrival(true, ReceiptHeld, ArchiveNotice)))
  }

  /** A first visit that could stand before the two that j shows besides. */
  predicate CouldBeFirst(j: Journey, first: Association)
    requires j.path.visit.Some? && j.current.visit.Some?
  {
    && ClientAssociation(first)
    && first.visit.Some? && first.visit.value.ordinal == 1 && !first.visit.value.world.FogStation?
    && first.session != j.path.session && first.session != j.current.session
    && first.visit.value.id != j.path.visit.value.id && first.visit.value.id != j.current.visit.value.id
  }

  /** A journey on the second of three visits, row by row. */
  predicate OnSecondOfThree(j: Journey) {
    && ClientAccepts(j)
    && j.path.visit.Some? && j.path.visit.value.ordinal == 2
    && j.current.visit.Some? && j.current.visit.value.ordinal == 3
  }

  lemma SecondOfThreeRows(j: Journey)
    requires OnSecondOfThree(j)
    ensures !FogRun(j) && j.path.session != j.current.session && j.path.visit.value.id != j.current.visit.value.id
    ensures j.predecessor.Some? && CouldBeFirst(j, j.predecessor.value) && j.successor == Some(j.current)
    ensures ClientAssociation(j.path) && !j.path.visit.value.world.FogStation? && !j.path.scenario.PatrolStory?
    ensures ClientAssociation(j.current) && !j.current.visit.value.world.FogStation?
  {
    NamedRows(j);
    assert ClientAssociation(Rows(j)[0]) && ClientAssociation(Rows(j)[1]);
    assert ClientAssociation(Rows(j)[2]) && ClientAssociation(Rows(j)[3]);
    assert ClientPair(Rows(j)[0], Rows(j)[1]) && ClientPair(Rows(j)[0], Rows(j)[2]);
    assert ClientPair(Rows(j)[1], Rows(j)[2]) && ClientPair(Rows(j)[1], Rows(j)[3]);
  }

  lemma ThirdRows(j: Journey)
    ensures Rows(OnThird(j)) == [j.current, j.current, j.path]
  {
  }

  lemma ThirdAccepted(j: Journey)
    requires OnSecondOfThree(j)
    ensures ClientAccepts(OnThird(j))
  {
    SecondOfThreeRows(j);
    ThirdRows(j);
  }

  lemma SecondRows(j: Journey, first: Association)
    requires OnSecondOfThree(j)
    ensures Rows(j.(predecessor := Some(first))) == [j.path, j.current, first, j.current]
  {
    SecondOfThreeRows(j);
  }

  lemma SecondAccepted(j: Journey, first: Association)
    requires OnSecondOfThree(j) && CouldBeFirst(j, first)
    ensures ClientAccepts(j.(predecessor := Some(first)))
  {
    SecondOfThreeRows(j);
    SecondRows(j, first);
  }

  /**
    * From the second visit to the third and back every check passes exactly for the journeys that show any first visit
    * that could be one: what was known of it is lost.
    */
  lemma FirstVisitForgotten(j: Journey, first: Association)
    requires OnSecondOfThree(j)
    ensures Walk([j, OnThird(j), j.(predecessor := Some(first))]) <==> CouldBeFirst(j, first)
    ensures CouldBeFirst(j, first) ==>
      Shown(j, 1) == j.predecessor && Shown(j.(predecessor := Some(first)), 1) == Some(first)
  {
    var back := j.(predecessor := Some(first));
    SecondOfThreeRows(j);
    if CouldBeFirst(j, first) {
      ThirdAccepted(j);
      SecondAccepted(j, first);
    }
    if Walk([j, OnThird(j), back]) {
      assert Neighbour([j, OnThird(j), back][1], [j, OnThird(j), back][2]);
      SecondOfThreeRows(back);
    }
  }

  // ---- a confirmed transition ----

  datatype View = View(session: nat, stateVersion: int, ended: bool, scenario: Story, context: Option<Context>)

  datatype Transition = Transition(
    revisit: bool, source: nat, sourceVersion: int, runId: nat, resultingVersion: int, context: Context,
    session: nat, initialVersion: int, scenario: Story, content: Story, visit: Visit)

  datatype Confirmed = Confirmed(source: View, sourceAssociation: Association, result: Transition)

  /** What the client's schemas admit as the result of a continuation or of a revisit. */
  predicate ResultAdmitted(t: Transition) {
    && ClientVisit(t.visit)
    && t.source != t.session
    && t.runId == t.context.runId
    && 0 <= t.sourceVersion <= MAX_SAFE
    && 1 <= t.context.entryVersion <= MAX_SAFE
    && t.initialVersion == 0
    && t.visit.ordinal == (if t.revisit then 3 else 2)
    && t.resultingVersion == (if t.revisit then 5 else 4)
    && if t.revisit then t.scenario == t.content == ArchiveStory
      else if t.visit.world.FogStation? then
        t.scenario == t.content == PatrolStory && t.context.entryWorld.FogStation?
      else t.scenario == t.content == ReceiptStory && t.context.entryWorld.DeathCertificate?
  }

  predicate ResultFollows(source: View, t: Transition) {
    && ResultAdmitted(t)
    && source.context == Some(t.context)
    && source.session == t.source
    && source.stateVersion == t.sourceVersion
    && source.ended
    && source.scenario ==
      (if t.visit.world.FogStation? then StationStory else if t.visit.ordinal == 3 then ReceiptStory else DeathStory)
  }

  /** When the journey stands on the source, it is the source as it was, materialised if it was not. */
  predicate SourceUnchanged(c: Confirmed, j: Journey) {
    j.path.session == c.result.source ==>
      j.path ==
        if c.sourceAssociation.visit.None? && c.result.visit.ordinal == 2 then
          c.sourceAssociation.(visit := j.path.visit)
        else c.sourceAssociation
  }

  predicate ConfirmedCurrent(c: Confirmed, j: Journey) {
    && ResultFollows(c.source, c.result)
    && ClientAccepts(j)
    && var target, t := Shown(j, c.result.visit.ordinal), c.result;
      && target.Some?
      && j.current.visit.Some?
      && (Count(j) == t.visit.ordinal || (t.visit.ordinal == 2 && Count(j) == 3))
      && j.runId == t.runId
      && j.context == t.context
      && target.value.session == t.session
      && target.value.scenario == t.scenario
      && target.value.content == t.content
      && target.value.visit == Some(t.visit)
      && target.value.stateVersion >= t.initialVersion
      && j.version >= t.resultingVersion
      && SourceUnchanged(c, j)
  }

  /** A move keeps a confirmed transition confirmed, but for the one clause that looks at the source itself. */
  lemma ConfirmedKept(c: Confirmed, from: Journey, to: Journey)
    requires ConfirmedCurrent(c, from) && Neighbour(from, to)
    ensures ConfirmedCurrent(c, to) <==> SourceUnchanged(c, to)
  {
    MaterialisedWhenMoving(from, to);
    AlwaysShown(from, c.result.visit.ordinal);
    AlwaysShown(to, c.result.visit.ordinal);
    NeighboursAgree(from, to, c.result.visit.ordinal);
  }

  /** What the client's checks allow a Run's version to be. */
  lemma ClientVersion(j: Journey)
    requires ClientAccepts(j) && j.current.visit.Some?
    ensures 2 <= Count(j) <= 3
    ensures j.version == Count(j) + 2 + (if j.lifecycle.Active? then 0 else 1)
  {
    NamedRows(j);
    assert ClientAssociation(Rows(j)[0]);
    assert ClientAssociation(Rows(j)[1]);
  }

  /**
    * A confirmed transition left an ended scenario of the same Run: the second of two stories for a revisit, the first
    * for a continuation. The version it led to is the one the Run has with that many visits.
    */
  lemma ConfirmedSource(c: Confirmed, j: Journey)
    requires ConfirmedCurrent(c, j)
    ensures c.source.ended && c.source.session == c.result.source && c.source.session != c.result.session
    ensures c.source.context == Some(j.context) && j.runId == j.context.runId
    ensures c.source.stateVersion == c.result.sourceVersion
    ensures c.source.scenario in {DeathStory, ReceiptStory, StationStory}
    ensures c.result.resultingVersion == 5 <==> c.source.scenario == ReceiptStory
    ensures c.result.resultingVersion == 4 <==> c.source.scenario in {DeathStory, StationStory}
    ensures c.source.scenario == StationStory ==> FogRun(j) && Count(j) == 2
    ensures c.source.scenario == ReceiptStory ==> Count(j) == 3
  {
    ClientVersion(j);
    NamedRows(j);
    assert ClientAssociation(Rows(j)[0]);
    assert ClientAssociation(Rows(j)[1]);
    var i := ShownIsRow(j, c.result.visit.ordinal);
    assert ClientAssociation(Rows(j)[i]);
  }

  /** And it is on record: a row of the journey is the destination, and the Run has not gone back behind it. */
  lemma ConfirmedResult(c: Confirmed, j: Journey) returns (row: Association)
    requires ConfirmedCurrent(c, j)
    ensures row in Rows(j) && row.session == c.result.session && row.visit == Some(c.result.visit)
    ensures row.stateVersion >= 0
    ensures row.scenario == row.content ==
      match c.source.scenario
      case DeathStory => ReceiptStory
      case ReceiptStory => ArchiveStory
      case _ => PatrolStory
    ensures c.result.resultingVersion == c.result.visit.ordinal + 2 <= Count(j) + 2 <= j.version
    ensures j.version == Count(j) + 2 + (if j.lifecycle.Active? then 0 else 1)
    ensures c.result.visit.ordinal == Count(j) ==> j.current == row
  {
    ConfirmedSource(c, j);
    ClientVersion(j);
    var i := ShownIsRow(j, c.result.visit.ordinal);
    row := Rows(j)[i];
    if c.result.visit.ordinal == Count(j) {
      NamedRows(j);
      ShownIs(j, j.current);
    }
  }

  /** Standing on the source, whose scenario its association names, is standing one visit before the destination. */
  lemma SourceIsOneBefore(c: Confirmed, j: Journey)
    requires ConfirmedCurrent(c, j)
    requires c.sourceAssociation.scenario == c.source.scenario && j.path.session == c.source.session
    ensures Ordinal(j.path) == c.result.visit.ordinal - 1
    ensures j.path == c.sourceAssociation.(visit := j.path.visit)
  {
    ConfirmedSource(c, j);
    NamedRows(j);
    assert ClientAssociation(Rows(j)[0]);
  }
}
