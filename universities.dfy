/** The university routes: a table of (name, domain) rows with a unique domain,
    and a bulk import that adds each well-formed entry whose domain is new. Row
    ids come from the table's serial counter. `JSON.stringify` and the error text
    of the database's unique-constraint violation are foreign and appear as
    parameters. */
module Universities {
  import opened Wrappers

  const NotAnArray: string := "Universities must be an array"
  const NotFound: string := "Not found"
  const ImportCompleted: string := "Import completed"
  const MissingPrefix: string := "Missing name or domain for university: "

  /** A `universities` row. */
  datatype University = University(id: nat, name: string, domain: string)

  /** One element of the imported array: an object with (possibly missing) name
      and domain, or `null`, which the handler cannot destructure. */
  datatype Entry = Entry(name: Field<string>, domain: Field<string>) | NullEntry

  /** The counters the import reports. */
  datatype ImportResults = ImportResults(added: nat, skipped: nat, errors: seq<string>)

  predicate Falsy(f: Field<string>) {
    f.Undefined? || f.Null? || f == Given("")
  }

  predicate HasDomain(t: seq<University>, domain: string) {
    exists k :: 0 <= k < |t| && t[k].domain == domain
  }

  /** The unique index on `domain`. */
  predicate UniqueDomains(t: seq<University>) {
    forall j, k :: 0 <= j < k < |t| ==> t[j].domain != t[k].domain
  }

  /** The primary key. */
  predicate UniqueIds(t: seq<University>) {
    forall j, k :: 0 <= j < k < |t| ==> t[j].id != t[k].id
  }

  /** Every row id is below the serial counter. */
  predicate IdsBelow(t: seq<University>, nextId: nat) {
    forall k :: 0 <= k < |t| ==> t[k].id < nextId
  }

  /** What the import has done so far: the table, the serial counter, the counters,
      and whether a `null` entry has aborted the loop. */
  datatype ImportState = ImportState(table: seq<University>, nextId: nat, results: ImportResults, crashed: bool)

  /** One iteration of the import loop. A `null` entry throws inside the `catch`
      as well, so the loop stops and the handler answers 500; the rows already
      inserted stay. */
  function Step(s: ImportState, e: Entry, stringify: Entry -> string): (s': ImportState)
    ensures s.crashed ==> s' == s
  {
    if s.crashed then s
    else match e
      case NullEntry => s.(crashed := true)
      case Entry(name, domain) =>
        if Falsy(name) || Falsy(domain) then
          s.(results := s.results.(errors := s.results.errors + [MissingPrefix + stringify(e)]))
        else if HasDomain(s.table, domain.value) then
          s.(results := s.results.(skipped := s.results.skipped + 1))
        else
          s.(table := s.table + [University(s.nextId, name.value, domain.value)], nextId := s.nextId + 1,
             results := s.results.(added := s.results.added + 1))
  }

  /** The import loop over a prefix of the entries. */
  function Import(s: ImportState, entries: seq<Entry>, stringify: Entry -> string): ImportState
    decreases |entries|
  {
    if entries == [] then s
    else Step(Import(s, entries[..|entries| - 1], stringify), entries[|entries| - 1], stringify)
  }

  function Counted(r: ImportResults): nat {
    r.added + r.skipped + |r.errors|
  }

  /** Each entry the loop reaches raises exactly one of the three counters; the
      table grows by exactly the added rows, keeps its old rows in front, and keeps
      its domains unique and its ids below the counter. */
  lemma {:induction false} ImportAccounting(s: ImportState, entries: seq<Entry>, stringify: Entry -> string)
    requires !s.crashed && UniqueDomains(s.table) && UniqueIds(s.table) && IdsBelow(s.table, s.nextId)
    ensures var s' := Import(s, entries, stringify);
      (!s'.crashed ==> Counted(s'.results) == Counted(s.results) + |entries|) &&
      Counted(s'.results) <= Counted(s.results) + |entries| &&
      |s'.table| == |s.table| + s'.results.added - s.results.added &&
      s'.results.added >= s.results.added &&
      s'.table[..|s.table|] == s.table &&
      UniqueDomains(s'.table) && UniqueIds(s'.table) && IdsBelow(s'.table, s'.nextId)
    decreases |entries|
  {
    if entries != [] {
      var front := entries[..|entries| - 1];
      ImportAccounting(s, front, stringify);
      var m := Import(s, front, stringify);
      var e := entries[|entries| - 1];
      var s' := Step(m, e, stringify);
      if !m.crashed && e.Entry? && !Falsy(e.name) && !Falsy(e.domain) && !HasDomain(m.table, e.domain.value) {
        assert s'.table == m.table + [University(m.nextId, e.name.value, e.domain.value)];
        assert s'.table[..|s.table|] == m.table[..|s.table|];
        forall j, k | 0 <= j < k < |s'.table|
          ensures s'.table[j].domain != s'.table[k].domain && s'.table[j].id != s'.table[k].id
        {
          if k == |m.table| {
            assert s'.table[j] == m.table[j];
          }
        }
      }
    }
  }

  /** After an import that did not abort, every well-formed entry's domain is in
      the table. */
  lemma {:induction false} ImportedDomainsPresent(s: ImportState, entries: seq<Entry>, stringify: Entry -> string)
    requires !Import(s, entries, stringify).crashed
    ensures forall i :: 0 <= i < |entries| && entries[i].Entry? && !Falsy(entries[i].name) && !Falsy(entries[i].domain) ==>
      HasDomain(Import(s, entries, stringify).table, entries[i].domain.value)
    decreases |entries|
  {
    if entries != [] {
      var front := entries[..|entries| - 1];
      var m := Import(s, front, stringify);
      var s' := Import(s, entries, stringify);
      assert !m.crashed;
      ImportedDomainsPresent(s, front, stringify);
      assert m.table <= s'.table;
      forall i | 0 <= i < |entries| && entries[i].Entry? && !Falsy(entries[i].name) && !Falsy(entries[i].domain)
        ensures HasDomain(s'.table, entries[i].domain.value)
      {
        if i < |front| {
          assert front[i] == entries[i];
          var k :| 0 <= k < |m.table| && m.table[k].domain == entries[i].domain.value;
          assert s'.table[k] == m.table[k];
        } else if !HasDomain(m.table, entries[i].domain.value) {
          assert s'.table[|m.table|].domain == entries[i].domain.value;
        } else {
          var k :| 0 <= k < |m.table| && m.table[k].domain == entries[i].domain.value;
          assert s'.table[k] == m.table[k];
        }
      }
    }
  }

  /** A table that already holds every domain of the entries gains nothing from
      importing them: each well-formed entry is skipped. */
  lemma {:induction false} ImportOfKnownDomainsAddsNothing(s: ImportState, entries: seq<Entry>, stringify: Entry -> string)
    requires forall i :: 0 <= i < |entries| && entries[i].Entry? && !Falsy(entries[i].name) && !Falsy(entries[i].domain) ==>
      HasDomain(s.table, entries[i].domain.value)
    ensures Import(s, entries, stringify).table == s.table
    ensures Import(s, entries, stringify).results.added == s.results.added
    decreases |entries|
  {
    if entries != [] {
      var front := entries[..|entries| - 1];
      forall i | 0 <= i < |front| && front[i].Entry? && !Falsy(front[i].name) && !Falsy(front[i].domain)
        ensures HasDomain(s.table, front[i].domain.value)
      {
        assert front[i] == entries[i];
      }
      ImportOfKnownDomainsAddsNothing(s, front, stringify);
    }
  }

  /** Importing the same array twice: the second run adds no row. */
  lemma ReimportAddsNothing(s: ImportState, entries: seq<Entry>, stringify: Entry -> string)
    requires !Import(s, entries, stringify).crashed
    ensures var once := Import(s, entries, stringify);
            var twice := Import(once.(results := ImportResults(0, 0, [])), entries, stringify);
            twice.table == once.table && twice.results.added == 0
  {
    var once := Import(s, entries, stringify);
    ImportedDomainsPresent(s, entries, stringify);
    ImportOfKnownDomainsAddsNothing(once.(results := ImportResults(0, 0, [])), entries, stringify);
  }

  /** `POST /bulk-import`: a payload that is not an array is 400 and touches
      nothing. Otherwise the loop runs; a `null` entry answers 500 but keeps the
      rows inserted before it. */
  function BulkImportResponse(s: ImportState, payload: Option<seq<Entry>>, stringify: Entry -> string,
                              typeError: string): (r: Response<ImportResults>)
    ensures payload.None? ==> r == Failure(400, NotAnArray)
    ensures payload.Some? && Import(s, payload.value, stringify).crashed ==> r == Failure(500, typeError)
    ensures payload.Some? && !Import(s, payload.value, stringify).crashed ==>
      r == Success(200, Import(s, payload.value, stringify).results)
  {
    if payload.None? then Failure(400, NotAnArray)
    else
      var s' := Import(s, payload.value, stringify);
      if s'.crashed then Failure(500, typeError) else Success(200, s'.results)
  }

  /** `POST /`: the insert violates the unique index when the domain is taken. */
  function Create(t: seq<University>, nextId: nat, name: string, domain: string, conflict: string): (r: Response<University>)
    ensures r.Failure? <==> HasDomain(t, domain)
    ensures r.Failure? ==> r == Failure(500, conflict)
    ensures r.Success? ==> r == Success(201, University(nextId, name, domain))
  {
    if HasDomain(t, domain) then Failure(500, conflict) else Success(201, University(nextId, name, domain))
  }

  /** The table with row `id` replaced. */
  function Replace(t: seq<University>, id: nat, name: string, domain: string): (t': seq<University>)
    ensures |t'| == |t|
    ensures forall k :: 0 <= k < |t| ==>
      t'[k] == if t[k].id == id then University(id, name, domain) else t[k]
  {
    if t == [] then []
    else [if t[0].id == id then University(id, name, domain) else t[0]] + Replace(t[1..], id, name, domain)
  }

  predicate HasId(t: seq<University>, id: nat) {
    exists k :: 0 <= k < |t| && t[k].id == id
  }

  /** `PUT /:id`: 404 when no row has the id; 500 when another row has the domain. */
  function Update(t: seq<University>, id: nat, name: string, domain: string, conflict: string): (res: (Response<University>, seq<University>))
    ensures !HasId(t, id) ==> res == (Failure(404, NotFound), t)
    ensures HasId(t, id) && (exists k :: 0 <= k < |t| && t[k].id != id && t[k].domain == domain) ==>
      res == (Failure(500, conflict), t)
    ensures res.0.Success? ==> res == (Success(200, University(id, name, domain)), Replace(t, id, name, domain))
  {
    if !HasId(t, id) then (Failure(404, NotFound), t)
    else if exists k :: 0 <= k < |t| && t[k].id != id && t[k].domain == domain then (Failure(500, conflict), t)
    else (Success(200, University(id, name, domain)), Replace(t, id, name, domain))
  }

  /** An update that succeeds keeps the domains unique. */
  lemma UpdateKeepsDomainsUnique(t: seq<University>, id: nat, name: string, domain: string, conflict: string)
    requires UniqueDomains(t) && UniqueIds(t)
    ensures UniqueDomains(Update(t, id, name, domain, conflict).1)
  {
    var res := Update(t, id, name, domain, conflict);
    if res.0.Success? {
      var t' := res.1;
      forall j, k | 0 <= j < k < |t'| ensures t'[j].domain != t'[k].domain {
        if t[j].id == id && t[k].id != id {
          assert t[k].domain != domain;
        } else if t[j].id != id && t[k].id == id {
          assert t[j].domain != domain;
        }
      }
    }
  }

  /** `GET /:id`. */
  function Get(t: seq<University>, id: nat): (r: Response<University>)
    ensures r.Success? <==> HasId(t, id)
    ensures r.Success? ==> r.code == 200 && r.value in t && r.value.id == id
    ensures r.Failure? ==> r == Failure(404, NotFound)
  {
    if t == [] then Failure(404, NotFound)
    else if t[0].id == id then Success(200, t[0])
    else Get(t[1..], id)
  }

  /** The rows a `DELETE ... WHERE id = $1` leaves. */
  function RemoveId(t: seq<University>, id: nat): (t': seq<University>)
    ensures forall u :: u in t' <==> u in t && u.id != id
    ensures |t'| <= |t|
  {
    if t == [] then [] else (if t[0].id == id then [] else [t[0]]) + RemoveId(t[1..], id)
  }

  /** `DELETE /:id`: 404 when no row was deleted, else 204. */
  function Delete(t: seq<University>, id: nat): (res: (Response<()>, seq<University>))
    ensures !HasId(t, id) ==> res == (Failure(404, NotFound), t)
    ensures HasId(t, id) ==> res == (Success(204, ()), RemoveId(t, id))
    ensures !HasId(res.1, id)
  {
    if !HasId(t, id) then (Failure(404, NotFound), t) else (Success(204, ()), RemoveId(t, id))
  }

  class UniversityRoutes {
    var universities: seq<University>
    var nextId: nat
    const stringify: Entry -> string
    const typeError: string

    constructor (universities: seq<University>, nextId: nat, stringify: Entry -> string, typeError: string)
      ensures this.universities == universities && this.nextId == nextId
      ensures this.stringify == stringify && this.typeError == typeError
    {
      this.universities := universities;
      this.nextId := nextId;
      this.stringify := stringify;
      this.typeError := typeError;
    }

    /** `POST /bulk-import`, as the loop runs it. */
    method BulkImport(payload: Option<seq<Entry>>) returns (r: Response<ImportResults>)
      modifies this
      ensures var s := ImportState(old(universities), old(nextId), ImportResults(0, 0, []), false);
        r == BulkImportResponse(s, payload, stringify, typeError) &&
        (payload.None? ==> universities == old(universities) && nextId == old(nextId)) &&
        (payload.Some? ==> universities == Import(s, payload.value, stringify).table &&
                           nextId == Import(s, payload.value, stringify).nextId)
    {
      var s0 := ImportState(universities, nextId, ImportResults(0, 0, []), false);
      if payload.None? {
        return Failure(400, NotAnArray);
      }
      var entries := payload.value;
      var added, skipped, errors := 0, 0, [];
      var i := 0;
      while i < |entries|
        invariant 0 <= i <= |entries|
        invariant Import(s0, entries[..i], stringify) == ImportState(universities, nextId, ImportResults(added, skipped, errors), false)
      {
        assert entries[..i + 1][..i] == entries[..i];
        match entries[i]
        case NullEntry =>
          ImportStopsAfterCrash(s0, entries, i + 1, stringify);
          assert entries[..|entries|] == entries;
          return Failure(500, typeError);
        case Entry(name, domain) =>
          if Falsy(name) || Falsy(domain) {
            errors := errors + [MissingPrefix + stringify(entries[i])];
          } else if HasDomain(universities, domain.value) {
            skipped := skipped + 1;
          } else {
            universities := universities + [University(nextId, name.value, domain.value)];
            nextId := nextId + 1;
            added := added + 1;
          }
        i := i + 1;
      }
      assert entries[..i] == entries;
      r := Success(200, ImportResults(added, skipped, errors));
    }
  }

  /** Once the loop has aborted, the later entries change nothing. */
  lemma {:induction false} ImportStopsAfterCrash(s: ImportState, entries: seq<Entry>, n: nat, stringify: Entry -> string)
    requires n <= |entries| && Import(s, entries[..n], stringify).crashed
    ensures Import(s, entries, stringify) == Import(s, entries[..n], stringify)
    decreases |entries| - n
  {
    if n < |entries| {
      assert entries[..n + 1][..n] == entries[..n];
      ImportStopsAfterCrash(s, entries, n + 1, stringify);
    } else {
      assert entries[..n] == entries;
    }
  }
}
