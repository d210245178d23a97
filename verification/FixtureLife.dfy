/**
 The fixture store: what is loaded, and operations suspended while their file is written. One
 `Step` is a call up to its first await, or what it does once the file is written.
 */
module FixtureLife {
  import opened Wrappers

  /** Slugs are never empty. */
  type Id = s: string | s != "" witness "untitled"

  datatype Fixture = Fixture(id: Id, name: string, content: string, scrapped: bool, scrappedAt: Option<string>)

  datatype Operation = Creating | Scrapping | Restoring

  /** The fixture as it will be once its file is written. */
  datatype Pending = Pending(operation: Operation, fixture: Fixture)

  datatype Wiring = Wired | Stub | NoFixtures

  datatype Store = Store(
    fixtures: map<Id, Fixture>,
    active: Option<Id>,
    sinkName: Option<string>,           // what the sink was last told is active
    sinkWiring: Wiring,
    pending: seq<Option<Pending>>       // every operation begun; None once it is over
  )

  datatype Step =
    | BeginCreate(fixture: Fixture)     // as generated: never scrapped
    | BeginScrap(id: Id, at: string)
    | BeginRestore(id: Id)
    | Persisted(operation: nat)
    | PersistFailed(operation: nat)
    | Load(id: Id)
    | Unload

  function WiringOf(active: Option<Id>, size: nat): Wiring {
    if active.Some? then Wired else if size > 0 then Stub else NoFixtures
  }

  function Rewired(s: Store): Store {
    s.(sinkWiring := WiringOf(s.active, |s.fixtures|))
  }

  function Unloaded(s: Store): Store {
    Rewired(s.(active := None, sinkName := None))
  }

  predicate IsPending(s: Store, i: nat) {
    i < |s.pending| && s.pending[i].Some?
  }

  predicate Enabled(s: Store, step: Step) {
    match step
    case BeginCreate(f) => !f.scrapped
    case Persisted(i) => IsPending(s, i)
    case PersistFailed(i) => IsPending(s, i)
    case _ => true
  }

  function Scrapped(f: Fixture, at: string): Fixture {
    f.(scrapped := true, scrappedAt := Some(at))
  }

  function Restored(f: Fixture): Fixture {
    f.(scrapped := false, scrappedAt := None)
  }

  /** A call that throws changes nothing. */
  function Next(s: Store, step: Step): Store
    requires Enabled(s, step)
  {
    match step
    case BeginCreate(f) =>
      if f.id in s.fixtures then s else s.(pending := s.pending + [Some(Pending(Creating, f))])
    case BeginScrap(id, at) =>
      if id !in s.fixtures then s
      else s.(pending := s.pending + [Some(Pending(Scrapping, Scrapped(s.fixtures[id], at)))])
    case BeginRestore(id) =>
      if id !in s.fixtures then s
      else s.(pending := s.pending + [Some(Pending(Restoring, Restored(s.fixtures[id])))])
    case Persisted(i) =>
      var f := s.pending[i].value.fixture;
      var after := s.(fixtures := s.fixtures[f.id := f], pending := s.pending[i := None]);
      if s.pending[i].value.operation.Scrapping? && s.active == Some(f.id) then Unloaded(after)
      else Rewired(after)
    case PersistFailed(i) => s.(pending := s.pending[i := None])
    case Load(id) =>
      if id !in s.fixtures || s.fixtures[id].scrapped then s
      else Rewired(s.(active := Some(id), sinkName := Some(s.fixtures[id].name)))
    case Unload => Unloaded(s)
  }

  /** What `init` leaves: the fixtures whose files could be read, and nothing loaded. */
  function Initial(fixtures: map<Id, Fixture>): Store {
    Store(fixtures, None, None, WiringOf(None, |fixtures|), [])
  }

  ghost predicate ValidRun(s: Store, steps: seq<Step>)
    decreases |steps|
  {
    steps == [] || (Enabled(s, steps[0]) && ValidRun(Next(s, steps[0]), steps[1..]))
  }

  ghost function Exec(s: Store, steps: seq<Step>): Store
    requires ValidRun(s, steps)
    decreases |steps|
  {
    if steps == [] then s else Exec(Next(s, steps[0]), steps[1..])
  }

  // ---- what every step keeps --------------------------------------------------------------

  /** The active fixture exists and is not scrapped. */
  predicate ActiveIsUsable(s: Store) {
    s.active.Some? ==> s.active.value in s.fixtures && !s.fixtures[s.active.value].scrapped
  }

  /** The sink knows whether a fixture is active and what that means for the wiring. */
  predicate SinkIsInformed(s: Store) {
    && s.sinkWiring == WiringOf(s.active, |s.fixtures|)
    && (s.sinkName.Some? <==> s.active.Some?)
  }

  ghost predicate PendingIsSound(s: Store) {
    && (forall id :: id in s.fixtures ==> s.fixtures[id].id == id)
    && forall i :: 0 <= i < |s.pending| && s.pending[i].Some? ==>
         var p := s.pending[i].value;
         && (p.fixture.scrapped <==> p.operation.Scrapping?)
         && (!p.operation.Creating? ==> p.fixture.id in s.fixtures)
  }

  ghost predicate Sound(s: Store) {
    ActiveIsUsable(s) && SinkIsInformed(s) && PendingIsSound(s)
  }

  lemma ActiveStep(s: Store, step: Step)
    requires Sound(s) && Enabled(s, step)
    ensures ActiveIsUsable(Next(s, step)) && SinkIsInformed(Next(s, step))
  {
  }

  lemma PendingStep(s: Store, step: Step)
    requires PendingIsSound(s) && Enabled(s, step)
    ensures PendingIsSound(Next(s, step))
  {
  }

  lemma SoundStep(s: Store, step: Step)
    requires Sound(s) && Enabled(s, step)
    ensures Sound(Next(s, step))
    ensures s.fixtures.Keys <= Next(s, step).fixtures.Keys
  {
    ActiveStep(s, step);
    PendingStep(s, step);
  }

  /**
   In every interleaving after init: the active fixture exists and is never scrapped, the
   sink's wiring is the function of (active, size), and no id ever disappears.
   */
  lemma {:induction false} SoundRun(s: Store, steps: seq<Step>)
    requires Sound(s) && ValidRun(s, steps)
    ensures Sound(Exec(s, steps))
    ensures s.fixtures.Keys <= Exec(s, steps).fixtures.Keys
    decreases |steps|
  {
    if steps != [] {
      SoundStep(s, steps[0]);
      SoundRun(Next(s, steps[0]), steps[1..]);
    }
  }

  lemma InitialIsSound(fixtures: map<Id, Fixture>, steps: seq<Step>)
    requires forall id :: id in fixtures ==> fixtures[id].id == id
    requires ValidRun(Initial(fixtures), steps)
    ensures Sound(Exec(Initial(fixtures), steps))
    ensures fixtures.Keys <= Exec(Initial(fixtures), steps).fixtures.Keys
  {
    SoundRun(Initial(fixtures), steps);
  }

  lemma ScrapWritten(s: Store, id: Id, at: string)
    requires id in s.fixtures && s.fixtures[id].id == id
    ensures var begun := Next(s, BeginScrap(id, at));
            && Enabled(begun, Persisted(|s.pending|))
            && Next(begun, Persisted(|s.pending|)).fixtures == s.fixtures[id := Scrapped(s.fixtures[id], at)]
            && |Next(begun, Persisted(|s.pending|)).pending| == |s.pending| + 1
  {
  }

  lemma RestoreWritten(s: Store, id: Id)
    requires id in s.fixtures && s.fixtures[id].id == id
    ensures var begun := Next(s, BeginRestore(id));
            && Enabled(begun, Persisted(|s.pending|))
            && Next(begun, Persisted(|s.pending|)).fixtures == s.fixtures[id := Restored(s.fixtures[id])]
  {
  }

  /** A scrap and a restore that nothing comes between leave a fixture with neither mark and
      otherwise as it was; one that had none is back as it was. */
  lemma RestoreUndoesScrap(s: Store, id: Id, at: string)
    requires id in s.fixtures && s.fixtures[id].id == id
    ensures var n := |s.pending|;
            var steps := [BeginScrap(id, at), Persisted(n), BeginRestore(id), Persisted(n + 1)];
            && ValidRun(s, steps)
            && Exec(s, steps).fixtures == s.fixtures[id := s.fixtures[id].(scrapped := false, scrappedAt := None)]
    ensures !s.fixtures[id].scrapped && s.fixtures[id].scrappedAt.None? ==>
              s.fixtures[id := s.fixtures[id].(scrapped := false, scrappedAt := None)] == s.fixtures
  {
    var n := |s.pending|;
    ScrapWritten(s, id, at);
    var scrapped := Next(Next(s, BeginScrap(id, at)), Persisted(n));
    RestoreWritten(scrapped, id);
    RunOfFour(s, BeginScrap(id, at), Persisted(n), BeginRestore(id), Persisted(n + 1));
    assert Restored(Scrapped(s.fixtures[id], at)) == Restored(s.fixtures[id]);
  }

  lemma RunOfFour(s: Store, a: Step, b: Step, c: Step, d: Step)
    requires Enabled(s, a) && Enabled(Next(s, a), b)
    requires Enabled(Next(Next(s, a), b), c) && Enabled(Next(Next(Next(s, a), b), c), d)
    ensures ValidRun(s, [a, b, c, d])
    ensures Exec(s, [a, b, c, d]) == Next(Next(Next(Next(s, a), b), c), d)
  {
    RunOfThree(Next(s, a), b, c, d);
    assert [a, b, c, d][1..] == [b, c, d];
  }

  lemma RunOfThree(s: Store, a: Step, b: Step, c: Step)
    requires Enabled(s, a) && Enabled(Next(s, a), b) && Enabled(Next(Next(s, a), b), c)
    ensures ValidRun(s, [a, b, c])
    ensures Exec(s, [a, b, c]) == Next(Next(Next(s, a), b), c)
  {
    var s1, s2 := Next(s, a), Next(Next(s, a), b);
    assert [a, b, c][1..] == [b, c] && [b, c][1..] == [c] && [c][1..] == [];
    assert Exec(s2, [c]) == Exec(Next(s2, c), []);
    assert Exec(s1, [b, c]) == Exec(s2, [c]);
  }

  // ---- the active name --------------------------------------------------------------------

  /** The sink was told the name the active fixture has. */
  predicate NameMatches(s: Store)
    requires ActiveIsUsable(s)
  {
    s.active.Some? ==> s.sinkName == Some(s.fixtures[s.active.value].name)
  }

  /** Every fixture under one id, stored or being written, has one name. */
  ghost predicate NamesAgree(s: Store) {
    && (forall i :: 0 <= i < |s.pending| && s.pending[i].Some? && s.pending[i].value.fixture.id in s.fixtures ==>
          s.pending[i].value.fixture.name == s.fixtures[s.pending[i].value.fixture.id].name)
    && (forall i, j :: 0 <= i < |s.pending| && 0 <= j < |s.pending| && s.pending[i].Some? && s.pending[j].Some? ==>
          s.pending[i].value.fixture.id == s.pending[j].value.fixture.id ==>
          s.pending[i].value.fixture.name == s.pending[j].value.fixture.name)
  }

  ghost predicate Matched(s: Store) {
    Sound(s) && NamesAgree(s) && NameMatches(s)
  }

  /** Another fixture is being written under the same slug, and it has another name. */
  predicate Overlaps(s: Store, f: Fixture) {
    exists i :: 0 <= i < |s.pending| && s.pending[i].Some? &&
                s.pending[i].value.fixture.id == f.id && s.pending[i].value.fixture.name != f.name
  }

  /** A create that the store accepts overlaps no other of its slug. */
  predicate IsSeparate(s: Store, step: Step) {
    step.BeginCreate? && step.fixture.id !in s.fixtures ==> !Overlaps(s, step.fixture)
  }

  lemma NamesAgreeBegin(s: Store, step: Step)
    requires PendingIsSound(s) && NamesAgree(s) && Enabled(s, step) && IsSeparate(s, step)
    requires !step.Persisted?
    ensures NamesAgree(Next(s, step))
  {
  }

  lemma NamesAgreeStep(s: Store, step: Step)
    requires PendingIsSound(s) && NamesAgree(s) && Enabled(s, step) && IsSeparate(s, step)
    ensures NamesAgree(Next(s, step))
  {
    if !step.Persisted? {
      NamesAgreeBegin(s, step);
    }
  }

  lemma NameMatchesStep(s: Store, step: Step)
    requires Sound(s) && NamesAgree(s) && NameMatches(s) && Enabled(s, step)
    ensures ActiveIsUsable(Next(s, step)) && NameMatches(Next(s, step))
  {
    SoundStep(s, step);
  }

  lemma MatchedStep(s: Store, step: Step)
    requires Matched(s) && Enabled(s, step) && IsSeparate(s, step)
    ensures Matched(Next(s, step))
  {
    SoundStep(s, step);
    NamesAgreeStep(s, step);
    NameMatchesStep(s, step);
  }

  ghost predicate SeparateRun(s: Store, steps: seq<Step>)
    requires ValidRun(s, steps)
    decreases |steps|
  {
    steps == [] || (IsSeparate(s, steps[0]) && SeparateRun(Next(s, steps[0]), steps[1..]))
  }

  /** As long as no two creates of one slug overlap, the sink's active name is right. */
  lemma {:induction false} MatchedRun(s: Store, steps: seq<Step>)
    requires Matched(s) && ValidRun(s, steps) && SeparateRun(s, steps)
    ensures Matched(Exec(s, steps))
    decreases |steps|
  {
    if steps != [] {
      MatchedStep(s, steps[0]);
      MatchedRun(Next(s, steps[0]), steps[1..]);
    }
  }

  /** So it is from whatever fixtures `init` read. */
  lemma NamesFromInitial(fixtures: map<Id, Fixture>, steps: seq<Step>)
    requires forall id :: id in fixtures ==> fixtures[id].id == id
    requires ValidRun(Initial(fixtures), steps) && SeparateRun(Initial(fixtures), steps)
    ensures Matched(Exec(Initial(fixtures), steps))
  {
    MatchedRun(Initial(fixtures), steps);
  }

  ghost predicate CreatesNothing(steps: seq<Step>) {
    forall i :: 0 <= i < |steps| ==> !steps[i].BeginCreate?
  }

  lemma WithoutCreates(steps: seq<Step>)
    requires steps != [] && CreatesNothing(steps)
    ensures !steps[0].BeginCreate? && CreatesNothing(steps[1..])
  {
  }

  // ---- exactly when a create can mislead --------------------------------------------------

  /** Whatever is stored, written or announced under one slug has this name. */
  ghost predicate OneName(s: Store, id: Id, name: string) {
    && (id in s.fixtures ==> s.fixtures[id].name == name)
    && (forall i :: 0 <= i < |s.pending| && s.pending[i].Some? && s.pending[i].value.fixture.id == id ==>
          s.pending[i].value.fixture.name == name)
    && (s.active == Some(id) ==> s.sinkName == Some(name))
  }

  lemma OneNameStep(s: Store, step: Step, id: Id, name: string)
    requires PendingIsSound(s) && OneName(s, id, name) && Enabled(s, step) && !step.BeginCreate?
    ensures OneName(Next(s, step), id, name)
  {
  }

  lemma {:induction false} OneNameRun(s: Store, steps: seq<Step>, id: Id, name: string)
    requires Sound(s) && OneName(s, id, name) && ValidRun(s, steps) && CreatesNothing(steps)
    ensures OneName(Exec(s, steps), id, name)
    decreases |steps|
  {
    if steps != [] {
      WithoutCreates(steps);
      SoundStep(s, steps[0]);
      OneNameStep(s, steps[0], id, name);
      OneNameRun(Next(s, steps[0]), steps[1..], id, name);
    }
  }

  /** The run creates nothing more, and ends with this fixture active under a wrong name. */
  ghost predicate MisleadsAt(s: Store, steps: seq<Step>, id: Id) {
    && ValidRun(s, steps) && CreatesNothing(steps)
    && var end := Exec(s, steps);
       end.active == Some(id) && id in end.fixtures && end.sinkName != Some(end.fixtures[id].name)
  }

  lemma OverlapMisleads(s: Store, f: Fixture, i: nat)
    requires Sound(s) && f.id !in s.fixtures && !f.scrapped && IsPending(s, i)
    requires s.pending[i].value.fixture.id == f.id && s.pending[i].value.fixture.name != f.name
    ensures MisleadsAt(Next(s, BeginCreate(f)), [Persisted(i), Load(f.id), Persisted(|s.pending|)], f.id)
  {
    var n := |s.pending|;
    var s1 := Next(s, BeginCreate(f));
    var s2 := Next(s1, Persisted(i));
    assert s2.fixtures[f.id] == s.pending[i].value.fixture && !s2.fixtures[f.id].scrapped;
    var s3 := Next(s2, Load(f.id));
    var s4 := Next(s3, Persisted(n));
    RunOfThree(s1, Persisted(i), Load(f.id), Persisted(n));
    assert s4.active == Some(f.id) && s4.fixtures[f.id] == f;
  }

  /**
   Exactly then: from every state a run can reach, whatever is already wrong in it, a create
   the store accepts can lead to its own slug being active under a wrong name, with no further
   create, if and only if another fixture of the same slug and another name is still being
   written.
   */
  lemma CreateMisleadsIff(s: Store, f: Fixture)
    requires Sound(s) && f.id !in s.fixtures && !f.scrapped
    ensures (exists steps :: MisleadsAt(Next(s, BeginCreate(f)), steps, f.id)) <==> Overlaps(s, f)
  {
    if Overlaps(s, f) {
      var i :| 0 <= i < |s.pending| && s.pending[i].Some? &&
               s.pending[i].value.fixture.id == f.id && s.pending[i].value.fixture.name != f.name;
      OverlapMisleads(s, f, i);
    } else {
      var after := Next(s, BeginCreate(f));
      SoundStep(s, BeginCreate(f));
      assert OneName(after, f.id, f.name);
      forall steps | ValidRun(after, steps) && CreatesNothing(steps)
        ensures !MisleadsAt(after, steps, f.id)
      {
        OneNameRun(after, steps, f.id, f.name);
      }
    }
  }

  lemma RunOfFive(s: Store, a: Step, b: Step, c: Step, d: Step, e: Step)
    requires Enabled(s, a) && Enabled(Next(s, a), b) && Enabled(Next(Next(s, a), b), c)
    requires Enabled(Next(Next(Next(s, a), b), c), d) && Enabled(Next(Next(Next(Next(s, a), b), c), d), e)
    ensures ValidRun(s, [a, b, c, d, e])
    ensures Exec(s, [a, b, c, d, e]) == Next(Next(Next(Next(Next(s, a), b), c), d), e)
  {
    RunOfFour(Next(s, a), b, c, d, e);
    assert [a, b, c, d, e][1..] == [b, c, d, e];
  }

  /** Two names of one slug, created at the same time in an empty store, do lead there. */
  lemma TwoCreatesMislead(f: Fixture, g: Fixture)
    requires f.id == g.id && f.name != g.name && !f.scrapped && !g.scrapped
    ensures var steps := [BeginCreate(f), BeginCreate(g), Persisted(0), Load(f.id), Persisted(1)];
            && ValidRun(Initial(map[]), steps)
            && Exec(Initial(map[]), steps).active == Some(f.id)
            && Exec(Initial(map[]), steps).sinkName == Some(f.name)
            && Exec(Initial(map[]), steps).fixtures == map[f.id := g]
  {
    var s2 := Next(Next(Initial(map[]), BeginCreate(f)), BeginCreate(g));
    assert s2.pending == [Some(Pending(Creating, f)), Some(Pending(Creating, g))];
    var s3 := Next(s2, Persisted(0));
    assert s3.fixtures == map[f.id := f];
    var s4 := Next(s3, Load(f.id));
    var s5 := Next(s4, Persisted(1));
    assert s5.fixtures == map[f.id := g];
    RunOfFive(Initial(map[]), BeginCreate(f), BeginCreate(g), Persisted(0), Load(f.id), Persisted(1));
  }
}
