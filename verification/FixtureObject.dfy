/**
 The fixture store as the source holds it. Each method is a call up to `await this.persist`,
 or what follows it, and does what `FixtureLife.Next` says of the step.
 */
module FixtureObject {
  import opened Wrappers
  import opened Strings
  import opened FixtureLife

  datatype StoreError = NameRequired | NotFound(id: Id) | IsScrapped(id: Id) | NameConflict(name: string)

  class FixtureStore {
    var fixtures: map<Id, Fixture>
    var activeId: Option<Id>
    var sinkName: Option<string>
    var sinkWiring: Wiring
    var pending: seq<Option<Pending>>   // the suspended frames of the async methods

    function State(): Store
      reads this
    {
      Store(fixtures, activeId, sinkName, sinkWiring, pending)
    }

    /** What every interleaving keeps. */
    ghost predicate Valid()
      reads this
    {
      Sound(State())
    }

    /** `init`, with the fixtures its directory holds. */
    constructor (onDisk: map<Id, Fixture>)
      requires forall id :: id in onDisk ==> onDisk[id].id == id
      ensures Valid() && State() == Initial(onDisk)
    {
      fixtures, activeId, sinkName, pending := onDisk, None, None, [];
      sinkWiring := if |onDisk| > 0 then Stub else NoFixtures;
    }

    method RecomputeWiring()
      modifies this`sinkWiring
      ensures State() == Rewired(old(State()))
    {
      if activeId.Some? {
        sinkWiring := Wired;
        return;
      }
      sinkWiring := if |fixtures| > 0 then Stub else NoFixtures;
    }

    /** The call suspends while its file is written. */
    method Persist(operation: Operation, fixture: Fixture) returns (i: nat)
      modifies this`pending
      ensures i == |old(pending)| && pending == old(pending) + [Some(Pending(operation, fixture))]
    {
      i := |pending|;
      pending := pending + [Some(Pending(operation, fixture))];
    }

    /** `create`, up to the write; `slugify` and the generated content are parameters. */
    method Create(input: string, slugify: string -> Id, generate: string -> string) returns (r: Result<nat, StoreError>)
      requires Valid()
      modifies this
      ensures Valid()
      ensures var name := Trim(input);
              var id := slugify(name);
              && State() == (if name == "" then old(State())
                             else Next(old(State()), BeginCreate(Fixture(id, name, generate(name), false, None))))
              && r == (if name == "" then Failure(NameRequired)
                       else if id in old(fixtures) then Failure(NameConflict(name))
                       else Success(|old(pending)|))
    {
      var name := Trim(input);
      if name == "" {
        return Failure(NameRequired);
      }
      var id := slugify(name);
      var fixture := Fixture(id, name, generate(name), false, None);
      SoundStep(State(), BeginCreate(fixture));
      if id in fixtures {
        return Failure(NameConflict(name));
      }
      var i := Persist(Creating, fixture);
      r := Success(i);
    }

    method Scrap(id: Id, at: string) returns (r: Result<nat, StoreError>)
      requires Valid()
      modifies this
      ensures Valid()
      ensures State() == Next(old(State()), BeginScrap(id, at))
      ensures r == if id in old(fixtures) then Success(|old(pending)|) else Failure(NotFound(id))
    {
      SoundStep(State(), BeginScrap(id, at));
      if id !in fixtures {
        return Failure(NotFound(id));
      }
      var i := Persist(Scrapping, Scrapped(fixtures[id], at));
      r := Success(i);
    }

    method Restore(id: Id) returns (r: Result<nat, StoreError>)
      requires Valid()
      modifies this
      ensures Valid()
      ensures State() == Next(old(State()), BeginRestore(id))
      ensures r == if id in old(fixtures) then Success(|old(pending)|) else Failure(NotFound(id))
    {
      SoundStep(State(), BeginRestore(id));
      if id !in fixtures {
        return Failure(NotFound(id));
      }
      var i := Persist(Restoring, Restored(fixtures[id]));
      r := Success(i);
    }

    /** What create, scrap or restore does after the await. */
    method OnPersisted(i: nat)
      requires Enabled(State(), Persisted(i))
      requires Valid()
      modifies this
      ensures Valid()
      ensures State() == Next(old(State()), Persisted(i))
    {
      SoundStep(State(), Persisted(i));
      var p := pending[i].value;
      pending := pending[i := None];
      fixtures := fixtures[p.fixture.id := p.fixture];
      if p.operation.Scrapping? && activeId == Some(p.fixture.id) {
        UnloadActive();
      } else {
        RecomputeWiring();
      }
    }

    /** The write throws, and the call with it. */
    method OnPersistFailed(i: nat)
      requires Enabled(State(), PersistFailed(i))
      requires Valid()
      modifies this
      ensures Valid()
      ensures State() == Next(old(State()), PersistFailed(i))
    {
      SoundStep(State(), PersistFailed(i));
      pending := pending[i := None];
    }

    method LoadFixture(id: Id) returns (r: Result<Fixture, StoreError>)
      requires Valid()
      modifies this
      ensures Valid()
      ensures State() == Next(old(State()), Load(id))
      ensures r == if id !in old(fixtures) then Failure(NotFound(id))
                   else if old(fixtures)[id].scrapped then Failure(IsScrapped(id))
                   else Success(old(fixtures)[id])
    {
      SoundStep(State(), Load(id));
      if id !in fixtures {
        return Failure(NotFound(id));
      }
      var fixture := fixtures[id];
      if fixture.scrapped {
        return Failure(IsScrapped(id));
      }
      activeId := Some(id);
      sinkName := Some(fixture.name);
      RecomputeWiring();
      r := Success(fixture);
    }

    method UnloadActive()
      modifies this
      ensures old(Valid()) ==> Valid()
      ensures State() == Next(old(State()), Unload)
    {
      ghost var before := State();
      activeId := None;
      sinkName := None;
      RecomputeWiring();
      if Sound(before) {
        SoundStep(before, Unload);
      }
    }
  }
}
