/** The public journey of a Run, and the two validators that both claim to define it. */
module JourneySchemas {
  import opened Options

  datatype World = DeathCertificate | UndeliveredReceipt | FogStation | OtherWorld(n: nat)

  datatype Region = Facility | DispatchHall | VerificationArchive | Station | PatrolPass | OtherRegion(n: nat)

  /** Scenarios and, under the same names, the published content version of each. */
  datatype Story = DeathStory | ReceiptStory | ArchiveStory | StationStory | PatrolStory | OtherStory(n: nat)

  datatype Visit = Visit(id: nat, ordinal: int, world: World, worldVersion: int, region: Region, regionVersion: int)

  datatype Association =
    Association(session: nat, stateVersion: int, scenario: Story, content: Story, visit: Option<Visit>)

  datatype Ending = RuleBroken | RecordChallenged | RecordReal | ReceiptHeld | FogEnding | OtherEnding(n: nat)

  datatype Notice = FogNotice | ArchiveNotice | DispatchNotice | ResolvedNotice | FailedNotice | OtherNotice(n: nat)

  datatype Place = ReceiptWorld | DispatchPlace | ArchivePlace | StationWorld | PassPlace | OtherPlace(n: nat)

  datatype Kind = FirstContinuation | RegionalRevisit | FogPatrol

  datatype Arrival = Arrival(resolved: bool, ending: Ending, notice: Notice)

  datatype Offer = Offer(kind: Kind, world: Place, region: Place, notice: Notice)

  datatype Lifecycle = Active | Terminated | Completed

  /** rest stands for the parts of the context no rule here looks at. */
  datatype Context = Context(runId: nat, entryWorld: World, entryVersion: int, rest: nat)

  /** A completion is present exactly in the second schema version. */
  datatype Journey = Journey(
    session: nat, runId: nat, version: int, lifecycle: Lifecycle, context: Context,
    path: Association, current: Association, predecessor: Option<Association>, successor: Option<Association>,
    offer: Option<Offer>, arrival: Option<Arrival>, completion: Option<nat>)

  function Optional(row: Option<Association>): seq<Association> {
    if row.Some? then [row.value] else []
  }

  function Rows(j: Journey): seq<Association> {
    [j.path, j.current] + Optional(j.predecessor) + Optional(j.successor)
  }

  /** The ordinal of a row; a visit that was never materialised is the first. */
  function Ordinal(a: Association): int {
    if a.visit.None? then 1 else a.visit.value.ordinal
  }

  const MAX_INT64: int := 0x7fff_ffff_ffff_ffff
  const MAX_SAFE: int := 0x1f_ffff_ffff_ffff

  // ---- the server ----

  predicate ServerVisit(v: Visit) {
    && 1 <= v.ordinal <= 3
    && v.worldVersion == 1
    && v.regionVersion == 1
    && if v.world.FogStation? then v.ordinal <= 2 && v.region == (if v.ordinal == 1 then Station else PatrolPass)
      else if v.ordinal == 1 then v.world.DeathCertificate? && v.region.Facility?
      else v.world.UndeliveredReceipt? && v.region == (if v.ordinal == 2 then DispatchHall else VerificationArchive)
  }

  predicate InCatalogue(a: Association) {
    a.scenario == a.content && (a.scenario.DeathStory? || a.scenario.StationStory?)
  }

  predicate ServerAssociation(a: Association) {
    && 0 <= a.stateVersion <= MAX_INT64
    && (a.visit.Some? ==> ServerVisit(a.visit.value))
    && if a.visit.None? && InCatalogue(a) then true
      else if a.visit.Some? && a.visit.value.world.FogStation? then
        a.scenario == a.content == (if a.visit.value.ordinal == 1 then StationStory else PatrolStory)
      else
        a.scenario == a.content ==
          (if Ordinal(a) == 1 then DeathStory else if Ordinal(a) == 2 then ReceiptStory else ArchiveStory)
  }

  predicate ServerArrival(a: Arrival) {
    if a == Arrival(true, ReceiptHeld, ArchiveNotice) then true
    else if a.ending.FogEnding? then a.resolved && a.notice.FogNotice?
    else if a.resolved then (a.ending.RuleBroken? || a.ending.RecordChallenged?) && a.notice.ResolvedNotice?
    else a.ending.RecordReal? && a.notice.FailedNotice?
  }

  predicate ServerOffer(o: Offer) {
    if o.kind.FogPatrol? then o == Offer(FogPatrol, StationWorld, PassPlace, FogNotice)
    else if o.kind.RegionalRevisit? then o == Offer(RegionalRevisit, ReceiptWorld, ArchivePlace, ArchiveNotice)
    else o == Offer(FirstContinuation, ReceiptWorld, DispatchPlace, DispatchNotice)
  }

  predicate FogRun(j: Journey) { j.context.entryWorld.FogStation? }

  predicate ServerUnmaterialised(j: Journey) {
    && j.context.entryVersion == 1
    && (j.context.entryWorld.DeathCertificate? || FogRun(j))
    && j.current.scenario == j.current.content == (if FogRun(j) then StationStory else DeathStory)
    && j.path == j.current
    && j.predecessor.None?
    && j.successor.None?
    && j.arrival.None?
  }

  /** A neighbour is present exactly within the chain, and stands at the expected ordinal. */
  predicate ServerNeighbour(j: Journey, row: Option<Association>, expected: int, count: int) {
    if 1 <= expected <= count then
      row.Some? && row.value.visit.Some? && row.value.visit.value.ordinal == expected && row.value.session != j.session
    else row.None?
  }

  predicate ServerPair(left: Association, right: Association)
    requires left.visit.Some? && right.visit.Some?
  {
    if left.visit.value.ordinal == right.visit.value.ordinal then left == right
    else left.session != right.session && left.visit.value.id != right.visit.value.id
  }

  predicate AllMaterialised(rows: seq<Association>) {
    forall i :: 0 <= i < |rows| ==> rows[i].visit.Some?
  }

  predicate ServerPairs(rows: seq<Association>)
    requires AllMaterialised(rows)
  {
    forall i, k :: 0 <= i < k < |rows| ==> ServerPair(rows[i], rows[k])
  }

  /** The chain part of the materialised rules: neighbours where they belong, and no visit under two names. */
  predicate ServerChain(j: Journey)
    requires j.current.visit.Some? && j.path.visit.Some?
  {
    var count, ordinal := j.current.visit.value.ordinal, j.path.visit.value.ordinal;
    && ordinal <= count
    && ServerNeighbour(j, j.predecessor, ordinal - 1, count)
    && ServerNeighbour(j, j.successor, ordinal + 1, count)
    && (ordinal == count <==> j.path == j.current)
    && AllMaterialised(Rows(j))
    && ServerPairs(Rows(j))
  }

  predicate ServerMaterialised(j: Journey)
    requires j.current.visit.Some?
  {
    && (j.context.entryWorld.DeathCertificate? || FogRun(j))
    && j.path.visit.Some?
    && ServerChain(j)
    && var count, ordinal := j.current.visit.value.ordinal, j.path.visit.value.ordinal;
      && 2 <= count <= 3
      && (FogRun(j) ==> count == 2)
      && (forall i :: 0 <= i < |Rows(j)| ==> (Rows(j)[i].visit.value.world.FogStation? <==> FogRun(j)))
      && (ordinal == 2 ==> j.arrival.Some? && (j.arrival.value.notice.FogNotice? <==> FogRun(j)))
      && (j.arrival.None? <==> ordinal == 1)
      && (ordinal == 3 ==> j.arrival.value.ending.ReceiptHeld?)
      && (ordinal == 2 ==> !j.arrival.value.ending.ReceiptHeld?)
  }

  function Count(j: Journey): int { Ordinal(j.current) }

  predicate ServerFields(j: Journey) {
    && 1 <= j.context.entryVersion <= MAX_INT64
    && (forall i :: 0 <= i < |Rows(j)| ==> ServerAssociation(Rows(j)[i]))
    && (j.offer.Some? ==> ServerOffer(j.offer.value))
    && (j.arrival.Some? ==> ServerArrival(j.arrival.value))
    && if j.completion.Some? then j.lifecycle.Completed? && j.version == 6 && j.offer.None?
      else !j.lifecycle.Completed? && 3 <= j.version <= 6
  }

  predicate ServerAccepts(j: Journey) {
    && ServerFields(j)
    && j.session == j.path.session
    && j.runId == j.context.runId
    && (if j.current.visit.None? then ServerUnmaterialised(j) else ServerMaterialised(j))
    && j.version == Count(j) + 2 + (if j.lifecycle.Active? then 0 else 1)
    && (j.offer.Some? ==>
          && j.path == j.current
          && j.lifecycle.Active?
          && Count(j) != 3
          && (FogRun(j) ==> Count(j) == 1)
          && j.offer.value.kind ==
            (if FogRun(j) then FogPatrol else if Count(j) == 1 then FirstContinuation else RegionalRevisit))
    && (j.completion.Some? ==> j.current.visit.Some? && Count(j) == 3)
  }

  // ---- the client ----

  predicate ClientVisit(v: Visit) {
    && 1 <= v.ordinal <= 3
    && v.worldVersion == 1
    && v.regionVersion == 1
    && if v.world.FogStation? then v.ordinal <= 2 && v.region == [Station, PatrolPass][v.ordinal - 1]
      else
        && v.world == (if v.ordinal == 1 then DeathCertificate else UndeliveredReceipt)
        && v.region == [Facility, DispatchHall, VerificationArchive][v.ordinal - 1]
  }

  predicate ClientAssociation(a: Association) {
    && 0 <= a.stateVersion <= MAX_SAFE
    && (a.visit.Some? ==> ClientVisit(a.visit.value))
    && if a.visit.None? && a.scenario.StationStory? && a.content.StationStory? then true
      else if a.visit.Some? && a.visit.value.world.FogStation? then
        a.scenario == a.content == [StationStory, PatrolStory][a.visit.value.ordinal - 1]
      else a.scenario == a.content == [DeathStory, ReceiptStory, ArchiveStory][Ordinal(a) - 1]
  }

  predicate ClientFog(j: Journey) {
    if FogRun(j) then
      && j.context.entryVersion == 1
      && (forall i :: 0 <= i < |Rows(j)| ==>
            var a := Rows(j)[i];
            if a.visit.Some? then a.visit.value.world.FogStation? else a.scenario.StationStory?)
      && (j.current.visit.Some? ==> j.current.visit.value.ordinal == 2)
    else forall i :: 0 <= i < |Rows(j)| ==> !Rows(j)[i].scenario.StationStory? && !Rows(j)[i].scenario.PatrolStory?
  }

  predicate ClientCompletedFog(j: Journey) {
    && !FogRun(j)
    && forall i :: 0 <= i < |Rows(j)| && Rows(j)[i].visit.Some? ==> !Rows(j)[i].visit.value.world.FogStation?
  }

  predicate ClientPair(left: Association, right: Association) {
    if Ordinal(left) == Ordinal(right) then left == right
    else
      && left.session != right.session
      && (left.visit.Some? && right.visit.Some? ==> left.visit.value.id != right.visit.value.id)
      && (left.visit.Some? || right.visit.Some?)
  }

  /** The refinement both schema versions share. */
  predicate ClientChain(j: Journey) {
    var ordinal, last := Ordinal(j.path), Ordinal(j.current);
    && j.session == j.path.session
    && j.runId == j.context.runId
    && ordinal <= last
    && j.version == last + 2 + (if j.lifecycle.Active? then 0 else 1)
    && (forall i :: 0 <= i < |Rows(j)| ==> (Rows(j)[i].visit.None? <==> last == 1))
    && (j.predecessor.None? <==> ordinal == 1)
    && (j.successor.None? <==> ordinal == last)
    && (j.predecessor.Some? ==> j.predecessor.value.visit.Some? && j.predecessor.value.visit.value.ordinal == ordinal - 1)
    && (j.successor.Some? ==> j.successor.value.visit.Some? && j.successor.value.visit.value.ordinal == ordinal + 1)
    && forall i, k :: 0 <= i < k < |Rows(j)| ==> ClientPair(Rows(j)[i], Rows(j)[k])
  }

  predicate ClientOffer(j: Journey, o: Offer) {
    var ordinal, last := Ordinal(j.path), Ordinal(j.current);
    && j.lifecycle.Active?
    && ordinal == last
    && last != 3
    && if FogRun(j) then last == 1 && o == Offer(FogPatrol, StationWorld, PassPlace, FogNotice)
      else
        && o.kind == (if last == 1 then FirstContinuation else RegionalRevisit)
        && o.world == ReceiptWorld
        && o.region == (if last == 1 then DispatchPlace else ArchivePlace)
        && (last == 2 ==> o.notice.ArchiveNotice?)
  }

  predicate ClientArrival(j: Journey) {
    var ordinal := Ordinal(j.path);
    if ordinal == 1 then j.arrival.None?
    else
      && j.arrival.Some?
      && var a := j.arrival.value;
        if FogRun(j) then a.resolved && a.ending.FogEnding? && a.notice.FogNotice?
        else if ordinal == 3 then a == Arrival(true, ReceiptHeld, ArchiveNotice)
        else if a.resolved then (a.ending.RuleBroken? || a.ending.RecordChallenged?) && a.notice.ResolvedNotice?
        else a.ending.RecordReal? && a.notice.FailedNotice?
  }

  predicate ClientAccepts(j: Journey) {
    && 1 <= j.context.entryVersion <= MAX_SAFE
    && (forall i :: 0 <= i < |Rows(j)| ==> ClientAssociation(Rows(j)[i]))
    && 3 <= j.version <= 6
    && ClientChain(j)
    && ClientArrival(j)
    && if j.completion.Some? then
        && j.lifecycle.Completed?
        && ClientCompletedFog(j)
        && j.version == 6
        && j.current.visit.Some?
        && j.current.visit.value.ordinal == 3
        && j.offer.None?
      else
        && !j.lifecycle.Completed?
        && ClientFog(j)
        && (j.offer.Some? ==> ClientOffer(j, j.offer.value))
  }

  // ---- where the two agree ----

  /** The numbers the client can hold exactly. */
  predicate SafeNumbers(j: Journey) {
    && j.context.entryVersion <= MAX_SAFE
    && forall i :: 0 <= i < |Rows(j)| ==> Rows(j)[i].stateVersion <= MAX_SAFE
  }

  predicate FogVersionOne(j: Journey) { FogRun(j) ==> j.context.entryVersion == 1 }

  /** The Run started in a published world, in its published version as long as it has not left it. */
  predicate PublishedEntry(j: Journey) {
    && (j.context.entryWorld.DeathCertificate? || FogRun(j))
    && (j.current.visit.None? ==> j.context.entryVersion == 1)
  }

  predicate AuthoredNotice(j: Journey) {
    j.offer.Some? && j.offer.value.kind.FirstContinuation? ==> j.offer.value.notice.DispatchNotice?
  }

  lemma VisitsAgree(v: Visit)
    ensures ServerVisit(v) <==> ClientVisit(v)
  {
  }

  lemma AssociationsAgree(a: Association)
    ensures ServerAssociation(a) && a.stateVersion <= MAX_SAFE <==> ClientAssociation(a)
  {
    if a.visit.Some? {
      VisitsAgree(a.visit.value);
    }
  }

  lemma RowsAgree(j: Journey)
    ensures (forall i :: 0 <= i < |Rows(j)| ==> ServerAssociation(Rows(j)[i]) && Rows(j)[i].stateVersion <= MAX_SAFE)
      <==> (forall i :: 0 <= i < |Rows(j)| ==> ClientAssociation(Rows(j)[i]))
  {
    forall i | 0 <= i < |Rows(j)|
      ensures ServerAssociation(Rows(j)[i]) && Rows(j)[i].stateVersion <= MAX_SAFE <==> ClientAssociation(Rows(j)[i])
    {
      AssociationsAgree(Rows(j)[i]);
    }
  }

  lemma NamedRows(j: Journey)
    ensures |Rows(j)| >= 2 && Rows(j)[0] == j.path && Rows(j)[1] == j.current
    ensures j.predecessor.Some? ==> |Rows(j)| >= 3 && Rows(j)[2] == j.predecessor.value
    ensures j.successor.Some? ==> Rows(j)[|Rows(j)| - 1] == j.successor.value
    ensures |Rows(j)| == 2 + (if j.predecessor.Some? then 1 else 0) + (if j.successor.Some? then 1 else 0)
  {
  }

  lemma ServerImpliesClient(j: Journey)
    requires ServerAccepts(j) && SafeNumbers(j) && FogVersionOne(j)
    ensures ClientAccepts(j) && PublishedEntry(j) && AuthoredNotice(j)
  {
    RowsAgree(j);
    NamedRows(j);
    ServerChainIsClient(j);
    ServerArrivalIsClient(j);
    if j.completion.None? {
      ServerFogIsClient(j);
    }
  }

  lemma ServerChainIsClient(j: Journey)
    requires ServerAccepts(j)
    ensures ClientChain(j)
  {
    NamedRows(j);
  }

  lemma ServerArrivalIsClient(j: Journey)
    requires ServerAccepts(j)
    ensures ClientArrival(j)
  {
    NamedRows(j);
    assert ServerAssociation(Rows(j)[0]);
  }

  lemma ServerFogIsClient(j: Journey)
    requires ServerAccepts(j) && FogVersionOne(j)
    ensures ClientFog(j)
  {
    NamedRows(j);
    forall i | 0 <= i < |Rows(j)| ensures
      var a := Rows(j)[i];
      if FogRun(j) then (if a.visit.Some? then a.visit.value.world.FogStation? else a.scenario.StationStory?)
      else !a.scenario.StationStory? && !a.scenario.PatrolStory?
    {
      assert ServerAssociation(Rows(j)[i]);
    }
  }

  lemma ClientImpliesServer(j: Journey)
    requires ClientAccepts(j) && PublishedEntry(j) && AuthoredNotice(j)
    ensures ServerAccepts(j) && SafeNumbers(j) && FogVersionOne(j)
  {
    RowsAgree(j);
    NamedRows(j);
  }

  /** The two validators accept the same journeys, except for exactly these. */
  lemma ContractsAgree(j: Journey)
    ensures ServerAccepts(j) ==> (ClientAccepts(j) <==> SafeNumbers(j) && FogVersionOne(j))
    ensures ClientAccepts(j) ==> (ServerAccepts(j) <==> PublishedEntry(j) && AuthoredNotice(j))
  {
    if ServerAccepts(j) && SafeNumbers(j) && FogVersionOne(j) {
      ServerImpliesClient(j);
    }
    if ClientAccepts(j) {
      if PublishedEntry(j) && AuthoredNotice(j) {
        ClientImpliesServer(j);
      }
      RowsAgree(j);
    }
  }

  // ---- each difference occurs ----

  /** A Run in its first world, seen right after admission. */
  function Admitted(stateVersion: int, context: Context, story: Story, offer: Option<Offer>): Journey {
    var row := Association(1, stateVersion, story, story, None);
    Journey(1, context.runId, 3, Active, context, row, row, None, None, offer, None, None)
  }

  /** A fog Run on its second and last visit. */
  function OnPatrol(entryVersion: int): Journey {
    var first := Association(1, 4, StationStory, StationStory, Some(Visit(1, 1, FogStation, 1, Station, 1)));
    var row := Association(2, 0, PatrolStory, PatrolStory, Some(Visit(2, 2, FogStation, 1, PatrolPass, 1)));
    Journey(2, 7, 4, Active, Context(7, FogStation, entryVersion, 0), row, row, Some(first), None, None,
      Some(Arrival(true, FogEnding, FogNotice)), None)
  }

  lemma AdmittedRows(stateVersion: int, context: Context, story: Story, offer: Option<Offer>)
    ensures var j := Admitted(stateVersion, context, story, offer); Rows(j) == [j.path, j.path]
  {
  }

  /** A session version the client cannot hold exactly. */
  lemma UnsafeNumberDiffers()
    ensures var j := Admitted(MAX_SAFE + 1, Context(7, DeathCertificate, 1, 0), DeathStory, None);
      ServerAccepts(j) && !ClientAccepts(j)
  {
    var j := Admitted(MAX_SAFE + 1, Context(7, DeathCertificate, 1, 0), DeathStory, None);
    AdmittedRows(MAX_SAFE + 1, Context(7, DeathCertificate, 1, 0), DeathStory, None);
    assert Rows(j)[0].stateVersion > MAX_SAFE;
    ContractsAgree(j);
  }

  /** A materialised fog Run that names another version of its entry world. */
  lemma FogVersionDiffers()
    ensures ServerAccepts(OnPatrol(2)) && !ClientAccepts(OnPatrol(2))
  {
    var j := OnPatrol(2);
    assert Rows(j) == [j.path, j.path, j.predecessor.value];
    ContractsAgree(j);
  }

  /** An entry world nobody has published. */
  lemma EntryDiffers()
    ensures var j := Admitted(0, Context(7, OtherWorld(0), 1, 0), DeathStory, None);
      ClientAccepts(j) && !ServerAccepts(j)
  {
    AdmittedRows(0, Context(7, OtherWorld(0), 1, 0), DeathStory, None);
    ContractsAgree(Admitted(0, Context(7, OtherWorld(0), 1, 0), DeathStory, None));
  }

  /** An offer of the first continuation under another notice. */
  lemma NoticeDiffers()
    ensures
      var offer := Offer(FirstContinuation, ReceiptWorld, DispatchPlace, OtherNotice(0));
      var j := Admitted(0, Context(7, DeathCertificate, 1, 0), DeathStory, Some(offer));
      ClientAccepts(j) && !ServerAccepts(j)
  {
    var offer := Offer(FirstContinuation, ReceiptWorld, DispatchPlace, OtherNotice(0));
    AdmittedRows(0, Context(7, DeathCertificate, 1, 0), DeathStory, Some(offer));
    ContractsAgree(Admitted(0, Context(7, DeathCertificate, 1, 0), DeathStory, Some(offer)));
  }

  // ---- what is accepted, value by value ----

  /** The five places a visit can be at. */
  lemma VisitRows(v: Visit)
    ensures ServerVisit(v) <==>
      && v.worldVersion == v.regionVersion == 1
      && (v.ordinal, v.world, v.region) in {
        (1, DeathCertificate, Facility), (2, UndeliveredReceipt, DispatchHall), (3, UndeliveredReceipt, VerificationArchive),
        (1, FogStation, Station), (2, FogStation, PatrolPass)}
  {
  }

  /** Each of them has one story; a session that is not materialised is in one of the two entry stories. */
  lemma AssociationRows(a: Association)
    ensures ServerAssociation(a) <==>
      && 0 <= a.stateVersion < 0x8000_0000_0000_0000
      && a.scenario == a.content
      && if a.visit.None? then a.scenario in {DeathStory, StationStory}
        else
          ServerVisit(a.visit.value) && (a.visit.value.region, a.scenario) in {
            (Facility, DeathStory), (DispatchHall, ReceiptStory), (VerificationArchive, ArchiveStory),
            (Station, StationStory), (PatrolPass, PatrolStory)}
  {
    if a.visit.Some? {
      VisitRows(a.visit.value);
    }
  }

  /** How an accepted journey says its place was reached, by that place. */
  lemma AcceptedArrival(j: Journey)
    requires ServerAccepts(j)
    ensures j.path.visit.None? || j.path.visit.value.region in {Facility, Station} <==> j.arrival.None?
    ensures j.path.visit.Some? && j.path.visit.value.region == VerificationArchive ==>
      j.arrival == Some(Arrival(true, ReceiptHeld, ArchiveNotice))
    ensures j.path.visit.Some? && j.path.visit.value.region == PatrolPass ==>
      j.arrival == Some(Arrival(true, FogEnding, FogNotice))
    ensures j.path.visit.Some? && j.path.visit.value.region == DispatchHall ==>
      j.arrival in {
        Some(Arrival(true, RuleBroken, ResolvedNotice)), Some(Arrival(true, RecordChallenged, ResolvedNotice)),
        Some(Arrival(false, RecordReal, FailedNotice))}
  {
    NamedRows(j);
    assert ServerAssociation(Rows(j)[0]);
    AssociationRows(j.path);
    if j.path.visit.Some? {
      VisitRows(j.path.visit.value);
    }
  }

  /** What an accepted journey offers: the one way on from an active Run's last place, by that place. */
  lemma AcceptedOffer(j: Journey)
    requires ServerAccepts(j) && j.offer.Some?
    ensures j.lifecycle == Active && j.path == j.current
    ensures j.path.scenario in {DeathStory, StationStory, ReceiptStory}
    ensures j.offer.value ==
      match j.path.scenario
      case DeathStory => Offer(FirstContinuation, ReceiptWorld, DispatchPlace, DispatchNotice)
      case StationStory => Offer(FogPatrol, StationWorld, PassPlace, FogNotice)
      case _ => Offer(RegionalRevisit, ReceiptWorld, ArchivePlace, ArchiveNotice)
  {
    NamedRows(j);
    assert ServerAssociation(Rows(j)[0]);
    AssociationRows(j.path);
    if j.path.visit.Some? {
      VisitRows(j.path.visit.value);
    }
  }
}
