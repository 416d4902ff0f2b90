/**
 The skill repository: a skill's versions, the index from version numbers to versions, its default
 and latest version, and the upload keys that make an upload happen once.
 */
module Skills {
  import opened Options
  import opened Tables

  type Id = nat
  datatype Version = Version(id: Id, number: nat, name: string, description: string, key: string)
  datatype Skill = Skill(latest: nat, chosen: nat, name: string, description: string)

  /** Everything stored under one skill's id; the counter outlives the skill. */
  datatype Shelf = Shelf(skill: Option<Skill>, counter: nat, versions: Table<Id, Version>, numbers: map<nat, Id>)
  datatype Made = MadeSkill(id: Id, skill: Skill) | MadeVersion(skillId: Id, version: Version)
  datatype Operation = Operation(fingerprint: string, key: string, made: Option<Made>)
  datatype Repository = Repository(shelves: map<Id, Shelf>, operations: map<string, Operation>, minted: nat)

  datatype Upload = Upload(operation: string, skillId: Option<Id>, fingerprint: string, makeDefault: bool,
                           name: string, description: string, key: string)
  /** `default`, `latest`, a number, or text that names no version. */
  datatype Selector = Default | Latest | Number(n: nat) | Other
  datatype Error = NotFound | IdempotencyConflict | VersionIsDefault
  datatype Result<+T> = Ok(value: T) | Err(error: Error)

  const EMPTY: Shelf := Shelf(None, 0, [], map[])

  function ShelfOf(r: Repository, id: Id): Shelf { if id in r.shelves then r.shelves[id] else EMPTY }

  function Retrieve(r: Repository, id: Id): Result<Skill> {
    if ShelfOf(r, id).skill.Some? then Ok(ShelfOf(r, id).skill.value) else Err(NotFound)
  }

  function NumberOf(skill: Skill, selector: Selector): Option<nat> {
    match selector
    case Default => Some(skill.chosen)
    case Latest => Some(skill.latest)
    case Number(n) => Some(n)
    case Other => None
  }

  /** The version a selector names. */
  function Select(shelf: Shelf, selector: Selector): Result<Version> {
    if shelf.skill.None? then Err(NotFound)
    else
      var number := NumberOf(shelf.skill.value, selector);
      if number.None? || number.value !in shelf.numbers then Err(NotFound)
      else
        match Get(shelf.versions, shelf.numbers[number.value])
        case None => Err(NotFound)
        case Some(version) => Ok(version)
  }

  // --- Uploads -------------------------------------------------------------------------------------------------

  /** The reservation of an upload key; the same key with other input is a conflict. */
  function Prepare(r: Repository, u: Upload, bundle: string): Result<(Repository, Operation)> {
    if u.operation in r.operations then
      if r.operations[u.operation].fingerprint != u.fingerprint then Err(IdempotencyConflict)
      else Ok((r, r.operations[u.operation]))
    else if u.skillId.Some? && Retrieve(r, u.skillId.value).Err? then Err(NotFound)
    else
      var operation := Operation(u.fingerprint, bundle, None);
      Ok((r.(operations := r.operations[u.operation := operation]), operation))
  }

  /** A shelf with one more version. */
  function Shelved(shelf: Shelf, id: Id, u: Upload): (Shelf, Version) {
    var next := shelf.counter + 1;
    var version := Version(id, next, u.name, u.description, u.key);
    var takes := shelf.skill.None? || u.makeDefault;
    var skill := Skill(next, if takes then next else shelf.skill.value.chosen,
                       if takes then u.name else shelf.skill.value.name,
                       if takes then u.description else shelf.skill.value.description);
    (Shelf(Some(skill), next, Put(shelf.versions, id, version), shelf.numbers[next := id]), version)
  }

  function Add(r: Repository, u: Upload, bundle: string): Result<(Repository, Made)> {
    match Prepare(r, u, bundle)
    case Err(error) => Err(error)
    case Ok((prepared, operation)) =>
      if operation.made.Some? then Ok((prepared, operation.made.value))
      else if operation.key != u.key then Err(IdempotencyConflict)
      else if u.skillId.Some? && Retrieve(prepared, u.skillId.value).Err? then Err(NotFound)
      else
        var skillId := if u.skillId.Some? then u.skillId.value else r.minted;
        var versionId := if u.skillId.Some? then r.minted else r.minted + 1;
        var (shelf, version) := Shelved(ShelfOf(prepared, skillId), versionId, u);
        var made := if u.skillId.Some? then MadeVersion(skillId, version) else MadeSkill(skillId, shelf.skill.value);
        Ok((Repository(prepared.shelves[skillId := shelf],
                       prepared.operations[u.operation := operation.(made := Some(made))], versionId + 1), made))
  }

  // --- Changes ----------------------------------------------------------------------------------------------------

  function Update(r: Repository, id: Id, selector: Selector): Result<Repository> {
    var shelf := ShelfOf(r, id);
    match Select(shelf, selector)
    case Err(error) => Err(error)
    case Ok(version) =>
      var skill := shelf.skill.value.(chosen := version.number, name := version.name, description := version.description);
      Ok(r.(shelves := r.shelves[id := shelf.(skill := Some(skill))]))
  }

  /** The version put last, which is what listing in descending order shows first. */
  function Newest(versions: Table<Id, Version>): Option<Version> {
    if versions == [] then None else Some(versions[|versions| - 1].value)
  }

  /** A shelf without one of its versions. */
  function Unshelved(shelf: Shelf, version: Version): Shelf
    requires shelf.skill.Some?
  {
    var left := Remove(shelf.versions, version.id);
    var skill := if Newest(left).Some? then shelf.skill.value.(latest := Newest(left).value.number) else shelf.skill.value;
    Shelf(Some(skill), shelf.counter, left, shelf.numbers - {version.number})
  }

  function DeleteVersion(r: Repository, id: Id, selector: Selector): Result<Repository> {
    var shelf := ShelfOf(r, id);
    match Select(shelf, selector)
    case Err(error) => Err(error)
    case Ok(version) =>
      if version.number == shelf.skill.value.chosen then Err(VersionIsDefault)
      else Ok(r.(shelves := r.shelves[id := Unshelved(shelf, version)]))
  }

  function Delete(r: Repository, id: Id): Result<Repository> {
    if Retrieve(r, id).Err? then Err(NotFound)
    else Ok(r.(shelves := r.shelves[id := EMPTY.(counter := ShelfOf(r, id).counter)]))
  }

  // --- What a shelf always is ------------------------------------------------------------------------------------

  ghost predicate Rising(versions: Table<Id, Version>) {
    versions == [] ||
    ((forall x | x in versions[1..] :: versions[0].value.number < x.value.number) && Rising(versions[1..]))
  }

  /** The index and the rows are inverse to each other. */
  ghost predicate Inverse(versions: Table<Id, Version>, numbers: map<nat, Id>) {
    && (forall x | x in versions :: x.value.number in numbers && numbers[x.value.number] == x.key)
    && (forall n | n in numbers :: Get(versions, numbers[n]).Some? && Get(versions, numbers[n]).value.number == n)
  }

  ghost predicate Kept(shelf: Shelf, minted: nat) {
    && Distinct(shelf.versions) && Rising(shelf.versions)
    && (forall x | x in shelf.versions :: x.value.id == x.key && x.key < minted && 1 <= x.value.number <= shelf.counter)
    && Inverse(shelf.versions, shelf.numbers)
    && (shelf.skill.None? ==> shelf.versions == [] && shelf.numbers == map[])
  }

  /** The default exists and gives the skill its name; the latest is the newest that survives. */
  ghost predicate Described(shelf: Shelf) {
    shelf.skill.Some? ==>
      var skill := shelf.skill.value;
      && Newest(shelf.versions).Some? && skill.latest == Newest(shelf.versions).value.number
      && skill.chosen in shelf.numbers
      && (var version := Get(shelf.versions, shelf.numbers[skill.chosen]);
          version.Some? && version.value.name == skill.name && version.value.description == skill.description)
  }

  ghost predicate Sound(r: Repository) {
    forall id | id in r.shelves :: id < r.minted && Kept(r.shelves[id], r.minted) && Described(r.shelves[id])
  }

  lemma {:induction false} LastIsHighest(versions: Table<Id, Version>, x: Row<Id, Version>)
    requires Rising(versions) && x in versions
    ensures x.value.number <= versions[|versions| - 1].value.number
  {
    if |versions| > 1 {
      assert versions[1..][|versions| - 2] == versions[|versions| - 1];
      if x == versions[0] {
        assert versions[1..][|versions| - 2] in versions[1..];
      } else {
        LastIsHighest(versions[1..], x);
      }
    }
  }

  lemma {:induction false} RisingAppend(versions: Table<Id, Version>, x: Row<Id, Version>)
    requires Rising(versions) && forall y | y in versions :: y.value.number < x.value.number
    ensures Rising(versions + [x])
  {
    if versions != [] {
      FirstIsRow(versions);
      forall y | y in versions[1..] ensures y.value.number < x.value.number { assert y in versions; }
      RisingAppend(versions[1..], x);
      assert (versions + [x])[1..] == versions[1..] + [x];
    } else {
      assert [x][1..] == [];
      assert versions + [x] == [x];
    }
  }

  lemma {:induction false} RisingRemove(versions: Table<Id, Version>, id: Id)
    requires Rising(versions)
    ensures Rising(Remove(versions, id))
  {
    if versions != [] {
      RisingRemove(versions[1..], id);
      var rest := Remove(versions[1..], id);
      forall y | y in rest ensures versions[0].value.number < y.value.number { RemoveMember(versions[1..], id, y); }
      if versions[0].key != id { assert Remove(versions, id)[1..] == rest; }
    }
  }

  lemma ShelvingInverts(shelf: Shelf, id: Id, version: Version)
    requires Kept(shelf, id) && version.id == id && version.number == shelf.counter + 1
    ensures Inverse(Put(shelf.versions, id, version), shelf.numbers[version.number := id])
  {
    var versions, numbers := Put(shelf.versions, id, version), shelf.numbers[version.number := id];
    forall n | n in numbers ensures Get(versions, numbers[n]).Some? && Get(versions, numbers[n]).value.number == n {
      PutGet(shelf.versions, id, version, numbers[n]);
      if n != version.number { GetIn(shelf.versions, shelf.numbers[n]); }
    }
    forall x | x in versions ensures x.value.number in numbers && numbers[x.value.number] == x.key {
      PutFrom(shelf.versions, id, version, x);
    }
  }

  lemma ShelvingIsDescribed(shelf: Shelf, id: Id, u: Upload)
    requires Kept(shelf, id) && Described(shelf)
    ensures var (next, version) := Shelved(shelf, id, u);
            Described(next) && next.counter == shelf.counter + 1
            && version.number == next.counter && Get(next.versions, id) == Some(version)
  {
    var (next, version) := Shelved(shelf, id, u);
    GetIn(shelf.versions, id);
    PutNewAppends(shelf.versions, id, version);
    PutGet(shelf.versions, id, version, id);
    if shelf.skill.Some? {
      var chosen := shelf.skill.value.chosen;
      GetIn(shelf.versions, shelf.numbers[chosen]);
      PutGet(shelf.versions, id, version, shelf.numbers[chosen]);
    }
  }

  lemma ShelvingIsKept(shelf: Shelf, id: Id, u: Upload)
    requires Kept(shelf, id) && Described(shelf)
    ensures Kept(Shelved(shelf, id, u).0, id + 1)
  {
    var (next, version) := Shelved(shelf, id, u);
    GetIn(shelf.versions, id);
    PutNewAppends(shelf.versions, id, version);
    PutStaysDistinct(shelf.versions, id, version);
    RisingAppend(shelf.versions, Row(id, version));
    ShelvingInverts(shelf, id, version);
  }

  lemma SelectedIsShelved(shelf: Shelf, minted: nat, selector: Selector)
    requires Kept(shelf, minted) && Select(shelf, selector).Ok?
    ensures var version := Select(shelf, selector).value;
            && Row(version.id, version) in shelf.versions && Get(shelf.versions, version.id) == Some(version)
            && version.number in shelf.numbers && shelf.numbers[version.number] == version.id
            && (selector.Number? ==> version.number == selector.n)
  {
    var number := NumberOf(shelf.skill.value, selector).value;
    GetIn(shelf.versions, shelf.numbers[number]);
  }

  lemma UnshelvingIsKept(shelf: Shelf, minted: nat, version: Version)
    requires Kept(shelf, minted) && Described(shelf) && shelf.skill.Some?
    requires Row(version.id, version) in shelf.versions && version.number != shelf.skill.value.chosen
    ensures Kept(Unshelved(shelf, version), minted) && Described(Unshelved(shelf, version))
  {
    var next := Unshelved(shelf, version);
    RemoveStaysDistinct(shelf.versions, version.id);
    RisingRemove(shelf.versions, version.id);
    InGet(shelf.versions, Row(version.id, version));
    forall x | x in next.versions
      ensures x in shelf.versions && x.value.number in next.numbers && next.numbers[x.value.number] == x.key
    {
      RemoveMember(shelf.versions, version.id, x);
    }
    forall n | n in next.numbers
      ensures Get(next.versions, next.numbers[n]).Some? && Get(next.versions, next.numbers[n]).value.number == n
    {
      RemoveGet(shelf.versions, version.id, shelf.numbers[n]);
    }
    var chosen := shelf.skill.value.chosen;
    RemoveGet(shelf.versions, version.id, shelf.numbers[chosen]);
    GetIn(next.versions, shelf.numbers[chosen]);
  }

  // --- Every run ---------------------------------------------------------------------------------------------------

  datatype Step =
    | Reserve(upload: Upload, bundle: string)
    | Publish(upload: Upload, bundle: string)
    | Choose(id: Id, selector: Selector)
    | Retract(id: Id, selector: Selector)
    | Discard(id: Id)

  /** A transaction that fails changes nothing. */
  function After(r: Repository, step: Step): Repository {
    match step
    case Reserve(upload, bundle) => if Prepare(r, upload, bundle).Ok? then Prepare(r, upload, bundle).value.0 else r
    case Publish(upload, bundle) => if Add(r, upload, bundle).Ok? then Add(r, upload, bundle).value.0 else r
    case Choose(id, selector) => if Update(r, id, selector).Ok? then Update(r, id, selector).value else r
    case Retract(id, selector) => if DeleteVersion(r, id, selector).Ok? then DeleteVersion(r, id, selector).value else r
    case Discard(id) => if Delete(r, id).Ok? then Delete(r, id).value else r
  }

  function Run(r: Repository, steps: seq<Step>): Repository
    decreases |steps|
  {
    if steps == [] then r else Run(After(r, steps[0]), steps[1..])
  }

  lemma KeptLater(shelf: Shelf, minted: nat, later: nat)
    requires Kept(shelf, minted) && minted <= later
    ensures Kept(shelf, later)
  {
  }

  /** One shelf replaced by a sound one leaves the repository sound. */
  lemma ReplacingIsSound(r: Repository, id: Id, shelf: Shelf, next: Repository)
    requires Sound(r) && r.minted <= next.minted && next.shelves == r.shelves[id := shelf]
    requires id < next.minted && Kept(shelf, next.minted) && Described(shelf)
    ensures Sound(next)
  {
    forall other | other in next.shelves
      ensures other < next.minted && Kept(next.shelves[other], next.minted) && Described(next.shelves[other])
    {
      if other != id { KeptLater(r.shelves[other], r.minted, next.minted); }
    }
  }

  lemma ShelvesAreSound(r: Repository, id: Id)
    requires Sound(r)
    ensures Kept(ShelfOf(r, id), r.minted) && Described(ShelfOf(r, id))
    ensures ShelfOf(r, id).skill.Some? ==> id < r.minted
  {
  }

  lemma AddIsSound(r: Repository, u: Upload, bundle: string)
    requires Sound(r) && Add(r, u, bundle).Ok?
    ensures Sound(Add(r, u, bundle).value.0)
  {
    var (prepared, operation) := Prepare(r, u, bundle).value;
    if operation.made.None? {
      var skillId := if u.skillId.Some? then u.skillId.value else r.minted;
      var versionId := if u.skillId.Some? then r.minted else r.minted + 1;
      var shelf := ShelfOf(r, skillId);
      assert ShelfOf(prepared, skillId) == shelf;
      ShelvesAreSound(r, skillId);
      KeptLater(shelf, r.minted, versionId);
      ShelvingIsKept(shelf, versionId, u);
      ShelvingIsDescribed(shelf, versionId, u);
      ReplacingIsSound(r, skillId, Shelved(shelf, versionId, u).0, Add(r, u, bundle).value.0);
    }
  }

  lemma UpdateIsSound(r: Repository, id: Id, selector: Selector)
    requires Sound(r) && Update(r, id, selector).Ok?
    ensures Sound(Update(r, id, selector).value)
  {
    ShelvesAreSound(r, id);
    SelectedIsShelved(ShelfOf(r, id), r.minted, selector);
    var next := Update(r, id, selector).value;
    ReplacingIsSound(r, id, next.shelves[id], next);
  }

  lemma DeleteVersionIsSound(r: Repository, id: Id, selector: Selector)
    requires Sound(r) && DeleteVersion(r, id, selector).Ok?
    ensures Sound(DeleteVersion(r, id, selector).value)
  {
    var shelf := ShelfOf(r, id);
    ShelvesAreSound(r, id);
    SelectedIsShelved(shelf, r.minted, selector);
    var version := Select(shelf, selector).value;
    UnshelvingIsKept(shelf, r.minted, version);
    ReplacingIsSound(r, id, Unshelved(shelf, version), DeleteVersion(r, id, selector).value);
  }

  lemma DeleteIsSound(r: Repository, id: Id)
    requires Sound(r) && Delete(r, id).Ok?
    ensures Sound(Delete(r, id).value)
  {
    ShelvesAreSound(r, id);
    var next := Delete(r, id).value;
    ReplacingIsSound(r, id, next.shelves[id], next);
  }

  lemma StepIsSound(r: Repository, step: Step)
    requires Sound(r)
    ensures Sound(After(r, step))
  {
    match step
    case Reserve(_, _) =>
    case Publish(upload, bundle) => if Add(r, upload, bundle).Ok? { AddIsSound(r, upload, bundle); }
    case Choose(id, selector) => if Update(r, id, selector).Ok? { UpdateIsSound(r, id, selector); }
    case Retract(id, selector) => if DeleteVersion(r, id, selector).Ok? { DeleteVersionIsSound(r, id, selector); }
    case Discard(id) => if Delete(r, id).Ok? { DeleteIsSound(r, id); }
  }

  lemma {:induction false} RunIsSound(r: Repository, steps: seq<Step>)
    requires Sound(r)
    ensures Sound(Run(r, steps))
    decreases |steps|
  {
    if steps != [] {
      StepIsSound(r, steps[0]);
      RunIsSound(After(r, steps[0]), steps[1..]);
    }
  }

  const NOTHING: Repository := Repository(map[], map[], 0)

  lemma DefaultAndLatestExist(shelf: Shelf, minted: nat)
    requires Kept(shelf, minted) && Described(shelf) && shelf.skill.Some?
    ensures var skill := shelf.skill.value;
            && Select(shelf, Default).Ok?
            && Select(shelf, Default).value.name == skill.name && Select(shelf, Default).value.description == skill.description
            && Select(shelf, Latest).Ok? && Select(shelf, Latest).value.number == skill.latest
  {
    var newest := shelf.versions[|shelf.versions| - 1];
    assert newest in shelf.versions;
    InGet(shelf.versions, newest);
  }

  lemma NumbersLeadToVersions(shelf: Shelf, minted: nat, x: Row<Id, Version>)
    requires Kept(shelf, minted) && Described(shelf) && shelf.skill.Some? && x in shelf.versions
    ensures x.value.number <= shelf.skill.value.latest && Select(shelf, Number(x.value.number)) == Ok(x.value)
  {
    LastIsHighest(shelf.versions, x);
    InGet(shelf.versions, x);
  }

  /**
   In every reachable repository, for every skill: its default version exists and gives it its name
   and description; no surviving version has a higher number than the latest, which survives; and a
   number leads to a version exactly if that version has the number.
   */
  lemma IndexesAgree(steps: seq<Step>, id: Id, x: Row<Id, Version>, n: nat)
    requires id in Run(NOTHING, steps).shelves && Run(NOTHING, steps).shelves[id].skill.Some?
    ensures var shelf := Run(NOTHING, steps).shelves[id]; var skill := shelf.skill.value;
            && Select(shelf, Default).Ok?
            && Select(shelf, Default).value.name == skill.name && Select(shelf, Default).value.description == skill.description
            && Select(shelf, Latest).Ok? && Select(shelf, Latest).value.number == skill.latest
            && (x in shelf.versions ==> x.value.number <= skill.latest && Select(shelf, Number(x.value.number)) == Ok(x.value))
            && (Select(shelf, Number(n)).Ok? ==>
                  Select(shelf, Number(n)).value.number == n
                  && Row(Select(shelf, Number(n)).value.id, Select(shelf, Number(n)).value) in shelf.versions)
  {
    RunIsSound(NOTHING, steps);
    var r := Run(NOTHING, steps);
    var shelf := r.shelves[id];
    DefaultAndLatestExist(shelf, r.minted);
    if x in shelf.versions { NumbersLeadToVersions(shelf, r.minted, x); }
    if Select(shelf, Number(n)).Ok? { SelectedIsShelved(shelf, r.minted, Number(n)); }
  }

  // --- Numbers and upload keys -----------------------------------------------------------------------------------------

  /** The number an upload would take for a skill that exists, or the one its version has. */
  lemma {:induction false} CountersNeverFall(r: Repository, steps: seq<Step>, id: Id)
    requires Sound(r) && id in r.shelves
    ensures var later := Run(r, steps); id in later.shelves && later.shelves[id].counter >= r.shelves[id].counter
    decreases |steps|
  {
    if steps != [] {
      StepIsSound(r, steps[0]);
      CounterNeverFalls(r, steps[0], id);
      CountersNeverFall(After(r, steps[0]), steps[1..], id);
    }
  }

  lemma CounterNeverFalls(r: Repository, step: Step, id: Id)
    requires Sound(r) && id in r.shelves
    ensures var later := After(r, step); id in later.shelves && later.shelves[id].counter >= r.shelves[id].counter
  {
    match step
    case Publish(upload, bundle) => AddCountsUp(r, upload, bundle, id);
    case _ =>
  }

  lemma AddCountsUp(r: Repository, u: Upload, bundle: string, id: Id)
    requires Sound(r) && id in r.shelves
    ensures Add(r, u, bundle).Ok? ==>
              var later := Add(r, u, bundle).value.0;
              id in later.shelves && later.shelves[id].counter >= r.shelves[id].counter
  {
  }

  /** A version published later has a higher number than any the skill ever had, deleted or not. */
  lemma NumbersAreNeverReused(r: Repository, steps: seq<Step>, u: Upload, bundle: string, x: Row<Id, Version>)
    requires Sound(r) && u.skillId.Some? && u.skillId.value in r.shelves && x in r.shelves[u.skillId.value].versions
    requires Add(Run(r, steps), u, bundle).Ok? && Add(Run(r, steps), u, bundle).value.0.shelves != Run(r, steps).shelves
    ensures var made := Add(Run(r, steps), u, bundle).value.1;
            made.MadeVersion? && made.skillId == u.skillId.value && made.version.number > x.value.number
  {
    CountersNeverFall(r, steps, u.skillId.value);
  }

  lemma OperationsStay(r: Repository, step: Step, key: string)
    requires key in r.operations && r.operations[key].made.Some?
    ensures key in After(r, step).operations && After(r, step).operations[key] == r.operations[key]
  {
  }

  lemma {:induction false} OperationsStayOn(r: Repository, steps: seq<Step>, key: string)
    requires key in r.operations && r.operations[key].made.Some?
    ensures key in Run(r, steps).operations && Run(r, steps).operations[key] == r.operations[key]
    decreases |steps|
  {
    if steps != [] {
      OperationsStay(r, steps[0], key);
      OperationsStayOn(After(r, steps[0]), steps[1..], key);
    }
  }

  /** An upload that was published is, under the same key and input, only ever answered again. */
  lemma UploadsHappenOnce(r: Repository, u: Upload, bundle: string, steps: seq<Step>, again: Upload, other: string)
    requires Add(r, u, bundle).Ok? && again.operation == u.operation
    ensures var later := Run(Add(r, u, bundle).value.0, steps);
            && (again.fingerprint == u.fingerprint ==> Add(later, again, other) == Ok((later, Add(r, u, bundle).value.1)))
            && (again.fingerprint != u.fingerprint ==> Add(later, again, other) == Err(IdempotencyConflict))
  {
    OperationsStayOn(Add(r, u, bundle).value.0, steps, u.operation);
  }

  // --- The repository in place -----------------------------------------------------------------------------------------

  class SkillRepository {
    var shelves: map<Id, Shelf>
    var operations: map<string, Operation>
    var minted: nat

    function State(): Repository reads this { Repository(shelves, operations, minted) }

    constructor ()
      ensures State() == NOTHING
    {
      shelves, operations, minted := map[], map[], 0;
    }

    method Begin(u: Upload, bundle: string) returns (error: Option<Error>, operation: Operation)
      modifies `operations
      ensures Prepare(old(State()), u, bundle) == if error.None? then Ok((State(), operation)) else Err(error.value)
      ensures error.Some? ==> State() == old(State())
    {
      operation := Operation(u.fingerprint, bundle, None);
      if u.operation in operations {
        operation := operations[u.operation];
        if operation.fingerprint != u.fingerprint { return Some(IdempotencyConflict), operation; }
        return None, operation;
      }
      if u.skillId.Some? && ShelfOf(State(), u.skillId.value).skill.None? { return Some(NotFound), operation; }
      operations := operations[u.operation := operation];
      return None, operation;
    }

    /** One transaction: a failure after the reservation takes the reservation back. */
    method Submit(u: Upload, bundle: string) returns (error: Option<Error>, made: Option<Made>)
      modifies this
      ensures match error
              case None => made.Some? && Add(old(State()), u, bundle) == Ok((State(), made.value))
              case Some(e) => Add(old(State()), u, bundle) == Err(e) && State() == old(State())
    {
      var before := operations;
      var operation;
      error, operation := Begin(u, bundle);
      if error.Some? { return error, None; }
      if operation.made.Some? { return None, operation.made; }
      if operation.key != u.key || (u.skillId.Some? && ShelfOf(State(), u.skillId.value).skill.None?) {
        operations := before;
        return Some(if operation.key != u.key then IdempotencyConflict else NotFound), None;
      }
      var skillId := minted;
      if u.skillId.Some? { skillId := u.skillId.value; } else { minted := minted + 1; }
      var (shelf, version) := Shelved(ShelfOf(State(), skillId), minted, u);
      minted := minted + 1;
      shelves := shelves[skillId := shelf];
      made := Some(if u.skillId.Some? then MadeVersion(skillId, version) else MadeSkill(skillId, shelf.skill.value));
      operations := operations[u.operation := operation.(made := made)];
      error := None;
    }

    method SetDefault(id: Id, selector: Selector) returns (error: Option<Error>)
      modifies `shelves
      ensures Update(old(State()), id, selector) == if error.None? then Ok(State()) else Err(error.value)
      ensures error.Some? ==> State() == old(State())
    {
      var shelf := ShelfOf(State(), id);
      var version := Select(shelf, selector);
      if version.Err? { return Some(version.error); }
      var v := version.value;
      shelves := shelves[id := shelf.(skill := Some(shelf.skill.value.(chosen := v.number, name := v.name,
                                                                      description := v.description)))];
      return None;
    }

    method RemoveVersion(id: Id, selector: Selector) returns (error: Option<Error>)
      modifies `shelves
      ensures DeleteVersion(old(State()), id, selector) == if error.None? then Ok(State()) else Err(error.value)
      ensures error.Some? ==> State() == old(State())
    {
      var shelf := ShelfOf(State(), id);
      var version := Select(shelf, selector);
      if version.Err? { return Some(version.error); }
      if version.value.number == shelf.skill.value.chosen { return Some(VersionIsDefault); }
      shelves := shelves[id := Unshelved(shelf, version.value)];
      return None;
    }

    method RemoveSkill(id: Id) returns (error: Option<Error>)
      modifies `shelves
      ensures Delete(old(State()), id) == if error.None? then Ok(State()) else Err(error.value)
      ensures error.Some? ==> State() == old(State())
    {
      var shelf := ShelfOf(State(), id);
      if shelf.skill.None? { return Some(NotFound); }
      shelves := shelves[id := EMPTY.(counter := shelf.counter)];
      return None;
    }
  }
}
