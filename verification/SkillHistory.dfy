/**
 What a repository shows of a skill, told from its history alone: every published version is there with
 the next number and exactly what was uploaded, until it is retracted, and the default moves only when a
 publication or an update says so.
 */
module SkillHistories {
  import opened Options
  import opened Tables
  import opened Skills

  /** The surviving versions in the order published, the default's number, and the last number given out. */
  datatype Catalogue = Catalogue(versions: seq<Version>, chosen: nat, counter: nat)

  const NO_VERSIONS: Catalogue := Catalogue([], 0, 0)

  ghost predicate Numbered(versions: seq<Version>, n: nat) { exists v | v in versions :: v.number == n }

  /** The number a selector stands for, if a skill is there. */
  ghost function Named(k: Catalogue, selector: Selector): Option<nat> {
    if k.versions == [] then None
    else
      match selector
      case Default => Some(k.chosen)
      case Latest => Some(k.versions[|k.versions| - 1].number)
      case Number(n) => if Numbered(k.versions, n) then Some(n) else None
      case Other => None
  }

  function Without(versions: seq<Version>, n: nat): seq<Version> {
    if versions == [] then []
    else if versions[0].number == n then Without(versions[1..], n)
    else [versions[0]] + Without(versions[1..], n)
  }

  ghost predicate Exists(r: Repository, id: Id) { id in r.shelves && r.shelves[id].skill.Some? }

  /** The upload was published before under its key and input. */
  predicate Replays(r: Repository, u: Upload) {
    u.operation in r.operations && r.operations[u.operation].fingerprint == u.fingerprint
    && r.operations[u.operation].made.Some?
  }

  /** Its key is new or reserved for this input, it brings the bundle reserved, and the skill it names is there. */
  ghost predicate Takes(r: Repository, u: Upload, bundle: string) {
    && (u.operation in r.operations ==>
          r.operations[u.operation].fingerprint == u.fingerprint && r.operations[u.operation].made.None?)
    && u.key == (if u.operation in r.operations then r.operations[u.operation].key else bundle)
    && (u.skillId.Some? ==> Exists(r, u.skillId.value))
  }

  /** The skill an upload goes to: the one it names, or a new one. */
  function Target(r: Repository, u: Upload): Id { if u.skillId.Some? then u.skillId.value else r.minted }

  ghost function Told(k: Catalogue, r: Repository, step: Step, id: Id): Catalogue {
    match step
    case Reserve(_, _) => k
    case Publish(u, bundle) =>
      if Takes(r, u, bundle) && Target(r, u) == id then
        var version := Version(if u.skillId.Some? then r.minted else r.minted + 1, k.counter + 1, u.name, u.description, u.key);
        Catalogue(k.versions + [version], if k.versions == [] || u.makeDefault then version.number else k.chosen, version.number)
      else k
    case Choose(other, selector) =>
      if other == id && Named(k, selector).Some? then k.(chosen := Named(k, selector).value) else k
    case Retract(other, selector) =>
      if other == id && Named(k, selector).Some? && Named(k, selector) != Some(k.chosen)
      then k.(versions := Without(k.versions, Named(k, selector).value)) else k
    case Discard(other) => if other == id then k.(versions := []) else k
  }

  ghost function ToldAll(k: Catalogue, r: Repository, steps: seq<Step>, id: Id): Catalogue
    decreases |steps|
  {
    if steps == [] then k else ToldAll(Told(k, r, steps[0], id), After(r, steps[0]), steps[1..], id)
  }

  function Values(versions: Table<Id, Version>): seq<Version> {
    seq(|versions|, i requires 0 <= i < |versions| => versions[i].value)
  }

  /** The shelf holds these versions, in order, and its skill names the default and is named after it. */
  ghost predicate Shows(shelf: Shelf, k: Catalogue) {
    && shelf.counter == k.counter && Values(shelf.versions) == k.versions
    && (shelf.skill.Some? <==> k.versions != [])
    && (shelf.skill.Some? ==>
        var skill := shelf.skill.value;
        && skill.chosen == k.chosen && skill.latest == k.versions[|k.versions| - 1].number
        && exists v :: v in k.versions && v.number == k.chosen && v.name == skill.name && v.description == skill.description)
  }

  // --- Reading a shelf ---------------------------------------------------------------------------------------

  lemma NumbersAreShown(shelf: Shelf, minted: nat, k: Catalogue, n: nat)
    requires Kept(shelf, minted) && Shows(shelf, k)
    ensures n in shelf.numbers <==> Numbered(k.versions, n)
  {
    if n in shelf.numbers {
      var row := Row(shelf.numbers[n], Get(shelf.versions, shelf.numbers[n]).value);
      GetIn(shelf.versions, shelf.numbers[n]);
      var i :| 0 <= i < |shelf.versions| && shelf.versions[i] == row;
      assert k.versions[i] == row.value;
    }
    if Numbered(k.versions, n) {
      var v :| v in k.versions && v.number == n;
      var i :| 0 <= i < |k.versions| && k.versions[i] == v;
      assert shelf.versions[i] in shelf.versions && shelf.versions[i].value == v;
    }
  }

  /** A selector finds the version that has the number it stands for, and nothing if it stands for none. */
  lemma SelectorsFindTheirNumber(shelf: Shelf, minted: nat, k: Catalogue, selector: Selector)
    requires Kept(shelf, minted) && Described(shelf) && Shows(shelf, k)
    ensures Select(shelf, selector).Ok? <==> Named(k, selector).Some?
    ensures Select(shelf, selector).Err? ==> Select(shelf, selector).error == NotFound
    ensures Select(shelf, selector).Ok? ==>
              Select(shelf, selector).value in k.versions && Select(shelf, selector).value.number == Named(k, selector).value
  {
    if shelf.skill.Some? {
      var skill := shelf.skill.value;
      var number := NumberOf(skill, selector);
      NumbersAreShown(shelf, minted, k, if number.Some? then number.value else 0);
      DefaultAndLatestExist(shelf, minted);
      if Select(shelf, selector).Ok? {
        var version := Select(shelf, selector).value;
        SelectedIsShelved(shelf, minted, selector);
        var i :| 0 <= i < |shelf.versions| && shelf.versions[i] == Row(version.id, version);
        assert k.versions[i] == version;
      }
    }
  }

  lemma {:induction false} RemovingShows(versions: Table<Id, Version>, id: Id, n: nat)
    requires forall x | x in versions :: x.key == id <==> x.value.number == n
    ensures Values(Remove(versions, id)) == Without(Values(versions), n)
  {
    if versions != [] {
      RemovingShows(versions[1..], id, n);
      assert versions[0] in versions;
      assert Values(versions)[1..] == Values(versions[1..]);
      if versions[0].key != id {
        assert Values([versions[0]] + Remove(versions[1..], id)) == [versions[0].value] + Values(Remove(versions[1..], id));
      }
    }
  }

  lemma {:induction false} WithoutKeeps(versions: seq<Version>, n: nat, v: Version)
    requires v in versions && v.number != n
    ensures v in Without(versions, n)
  {
    if versions[0] != v { WithoutKeeps(versions[1..], n, v); }
  }

  // --- One step ------------------------------------------------------------------------------------------------

  lemma AddingShows(shelf: Shelf, id: Id, u: Upload, k: Catalogue)
    requires Kept(shelf, id) && Described(shelf) && Shows(shelf, k)
    ensures var version := Version(id, k.counter + 1, u.name, u.description, u.key);
            Shows(Shelved(shelf, id, u).0,
                  Catalogue(k.versions + [version], if k.versions == [] || u.makeDefault then version.number else k.chosen,
                            version.number))
            && Shelved(shelf, id, u).1 == version
  {
    var version := Version(id, k.counter + 1, u.name, u.description, u.key);
    var (next, shelved) := Shelved(shelf, id, u);
    GetIn(shelf.versions, id);
    PutNewAppends(shelf.versions, id, version);
    assert Values(shelf.versions + [Row(id, version)]) == k.versions + [version];
    if k.versions == [] || u.makeDefault {
      assert version in k.versions + [version];
    } else {
      var skill := shelf.skill.value;
      var v :| v in k.versions && v.number == k.chosen && v.name == skill.name && v.description == skill.description;
      assert v in k.versions + [version];
    }
  }

  lemma RetractingShows(shelf: Shelf, minted: nat, selector: Selector, k: Catalogue)
    requires Kept(shelf, minted) && Described(shelf) && Shows(shelf, k) && Select(shelf, selector).Ok?
    requires Select(shelf, selector).value.number != k.chosen
    ensures Shows(Unshelved(shelf, Select(shelf, selector).value),
                  k.(versions := Without(k.versions, Select(shelf, selector).value.number)))
  {
    var version := Select(shelf, selector).value;
    SelectedIsShelved(shelf, minted, selector);
    forall x | x in shelf.versions ensures x.key == version.id <==> x.value.number == version.number {
      InGet(shelf.versions, x);
    }
    RemovingShows(shelf.versions, version.id, version.number);
    UnshelvingIsKept(shelf, minted, version);
    var left := Remove(shelf.versions, version.id);
    var skill := shelf.skill.value;
    var v :| v in k.versions && v.number == k.chosen && v.name == skill.name && v.description == skill.description;
    WithoutKeeps(k.versions, version.number, v);
    assert Values(left)[|left| - 1] == left[|left| - 1].value;
  }

  lemma OthersShow(r: Repository, step: Step, id: Id)
    requires step.Publish? ==> Takes(r, step.upload, step.bundle) && Target(r, step.upload) != id
    requires step.Choose? || step.Retract? || step.Discard? ==> step.id != id
    ensures ShelfOf(After(r, step), id) == ShelfOf(r, id)
  {
  }

  /** An upload is published, answered again or refused exactly as its key, its bundle and its skill say. */
  lemma UploadsAreTakenIff(r: Repository, u: Upload, bundle: string)
    ensures var answer, known := Add(r, u, bundle), u.operation in r.operations;
            && (answer.Ok? <==> Takes(r, u, bundle) || Replays(r, u))
            && (Replays(r, u) ==> answer.value == (r, r.operations[u.operation].made.value))
            && (answer.Err? ==> answer.error in {NotFound, IdempotencyConflict})
            && (known && r.operations[u.operation].fingerprint != u.fingerprint ==> answer == Err(IdempotencyConflict))
            && (!known && u.skillId.Some? && !Exists(r, u.skillId.value) ==> answer == Err(NotFound))
    ensures Takes(r, u, bundle) ==>
              var (next, made) := Add(r, u, bundle).value;
              && next.minted == r.minted + (if u.skillId.Some? then 1 else 2)
              && next.shelves.Keys == r.shelves.Keys + {Target(r, u)}
              && u.operation in next.operations && next.operations[u.operation].made == Some(made)
              && next.operations[u.operation].fingerprint == u.fingerprint
              && next.operations - {u.operation} == r.operations - {u.operation}
              && (if u.skillId.Some? then
                    made == MadeVersion(Target(r, u), Version(r.minted, ShelfOf(r, Target(r, u)).counter + 1, u.name,
                                                              u.description, u.key))
                  else made.MadeSkill? && made.id == Target(r, u) && next.shelves[made.id].skill == Some(made.skill))
  {
  }

  /** A reservation keeps its key for one input and one bundle, and nothing else changes. */
  lemma ReservationsAreKeptIff(r: Repository, u: Upload, bundle: string)
    ensures var answer, known := Prepare(r, u, bundle), u.operation in r.operations;
            && (answer.Ok? <==> if known then r.operations[u.operation].fingerprint == u.fingerprint
                                else u.skillId.Some? ==> Exists(r, u.skillId.value))
            && (answer.Err? ==> answer.error == if known then IdempotencyConflict else NotFound)
            && (answer.Ok? && known ==> answer.value == (r, r.operations[u.operation]))
            && (answer.Ok? && !known ==>
                var (next, operation) := answer.value;
                && operation == Operation(u.fingerprint, bundle, None) && next.shelves == r.shelves && next.minted == r.minted
                && next.operations == r.operations[u.operation := operation])
  {
  }

  lemma PublishingShows(r: Repository, u: Upload, bundle: string, id: Id, k: Catalogue)
    requires Sound(r) && Shows(ShelfOf(r, id), k)
    ensures Shows(ShelfOf(After(r, Publish(u, bundle)), id), Told(k, r, Publish(u, bundle), id))
  {
    UploadsAreTakenIff(r, u, bundle);
    if Takes(r, u, bundle) {
      if Target(r, u) == id {
        var versionId := if u.skillId.Some? then r.minted else r.minted + 1;
        ShelvesAreSound(r, id);
        KeptLater(ShelfOf(r, id), r.minted, versionId);
        AddingShows(ShelfOf(r, id), versionId, u, k);
        assert ShelfOf(After(r, Publish(u, bundle)), id) == Shelved(ShelfOf(r, id), versionId, u).0;
      } else {
        OthersShow(r, Publish(u, bundle), id);
      }
    }
  }

  lemma ChoosingShows(r: Repository, id: Id, selector: Selector, k: Catalogue)
    requires Sound(r) && Shows(ShelfOf(r, id), k)
    ensures Shows(ShelfOf(After(r, Choose(id, selector)), id), Told(k, r, Choose(id, selector), id))
  {
    ShelvesAreSound(r, id);
    SelectorsFindTheirNumber(ShelfOf(r, id), r.minted, k, selector);
  }

  /** The shelf after a retraction: as it was, or without the version the selector found. */
  lemma RetractedShelf(r: Repository, id: Id, selector: Selector)
    ensures var shelf := ShelfOf(r, id);
            var goes := Select(shelf, selector).Ok? && Select(shelf, selector).value.number != shelf.skill.value.chosen;
            ShelfOf(After(r, Retract(id, selector)), id)
            == if goes then Unshelved(shelf, Select(shelf, selector).value) else shelf
  {
  }

  lemma RetractionShows(r: Repository, id: Id, selector: Selector, k: Catalogue)
    requires Sound(r) && Shows(ShelfOf(r, id), k)
    ensures Shows(ShelfOf(After(r, Retract(id, selector)), id), Told(k, r, Retract(id, selector), id))
  {
    RetractedShelf(r, id, selector);
    ShelvesAreSound(r, id);
    SelectorsFindTheirNumber(ShelfOf(r, id), r.minted, k, selector);
    ShelfRetracts(ShelfOf(r, id), r.minted, selector, k, r, id);
  }

  lemma ShelfRetracts(shelf: Shelf, minted: nat, selector: Selector, k: Catalogue, r: Repository, id: Id)
    requires Kept(shelf, minted) && Described(shelf) && Shows(shelf, k)
    requires Select(shelf, selector).Ok? <==> Named(k, selector).Some?
    requires Select(shelf, selector).Ok? ==> Select(shelf, selector).value.number == Named(k, selector).value
    ensures var goes := Select(shelf, selector).Ok? && Select(shelf, selector).value.number != shelf.skill.value.chosen;
            Shows(if goes then Unshelved(shelf, Select(shelf, selector).value) else shelf, Told(k, r, Retract(id, selector), id))
  {
    if Select(shelf, selector).Ok? && Select(shelf, selector).value.number != k.chosen {
      RetractingShows(shelf, minted, selector, k);
    }
  }

  lemma StepShows(r: Repository, step: Step, id: Id, k: Catalogue)
    requires Sound(r) && Shows(ShelfOf(r, id), k)
    ensures Shows(ShelfOf(After(r, step), id), Told(k, r, step, id))
  {
    match step
    case Reserve(_, _) =>
    case Publish(u, bundle) => PublishingShows(r, u, bundle, id, k);
    case Choose(other, selector) =>
      if other == id { ChoosingShows(r, id, selector, k); } else { OthersShow(r, step, id); }
    case Retract(other, selector) =>
      if other == id { RetractionShows(r, id, selector, k); } else { OthersShow(r, step, id); }
    case Discard(other) => if other != id { OthersShow(r, step, id); }
  }

  // --- Every run -------------------------------------------------------------------------------------------------

  lemma {:induction false} RunShows(r: Repository, steps: seq<Step>, id: Id, k: Catalogue)
    requires Sound(r) && Shows(ShelfOf(r, id), k)
    ensures Shows(ShelfOf(Run(r, steps), id), ToldAll(k, r, steps, id))
    decreases |steps|
  {
    if steps != [] {
      StepIsSound(r, steps[0]);
      StepShows(r, steps[0], id, k);
      RunShows(After(r, steps[0]), steps[1..], id, Told(k, r, steps[0], id));
    }
  }

  /**
   On every run, for every skill: it holds exactly the versions published and not retracted or deleted
   since, in order, each as uploaded; its default is the one last chosen, by the first publication, one
   that asked for it or an update, and names it; and every selector finds the version it stands for.
   */
  lemma SkillsTellTheirHistory(steps: seq<Step>, id: Id, selector: Selector)
    ensures var shelf, k := ShelfOf(Run(NOTHING, steps), id), ToldAll(NO_VERSIONS, NOTHING, steps, id);
            && Shows(shelf, k)
            && (Select(shelf, selector).Ok? <==> Named(k, selector).Some?)
            && (Select(shelf, selector).Ok? ==>
                Select(shelf, selector).value in k.versions && Select(shelf, selector).value.number == Named(k, selector).value)
  {
    assert Values([]) == [];
    RunShows(NOTHING, steps, id, NO_VERSIONS);
    RunIsSound(NOTHING, steps);
    var r := Run(NOTHING, steps);
    ShelvesAreSound(r, id);
    SelectorsFindTheirNumber(ShelfOf(r, id), r.minted, ToldAll(NO_VERSIONS, NOTHING, steps, id), selector);
  }

  /** The default cannot be retracted; a skill goes with its versions, and its counter stays. */
  lemma RetractionsAreRefusedIff(r: Repository, id: Id, selector: Selector)
    ensures var shelf := ShelfOf(r, id);
            && (Update(r, id, selector).Ok? <==> Select(shelf, selector).Ok?)
            && (Update(r, id, selector).Err? ==> Update(r, id, selector).error == NotFound)
            && (DeleteVersion(r, id, selector) == Err(VersionIsDefault)
                <==> Select(shelf, selector).Ok? && Select(shelf, selector).value.number == shelf.skill.value.chosen)
            && (DeleteVersion(r, id, selector) == Err(NotFound) <==> Select(shelf, selector).Err?)
            && (Delete(r, id) == Err(NotFound) <==> !Exists(r, id)) && (Delete(r, id).Err? ==> !Exists(r, id))
  {
  }
}
