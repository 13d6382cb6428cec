/**
 Corpus import: problems are upserted by slug and their test cases by ordinal, measured runtimes are
 kept when a run measured none, a problem with any gap is stored inactive, and rows whose definition
 is gone are deactivated. Rows carry ids, so "the same rows" includes the same ids.
*/
module Importer {

  import opened Wrappers
  import Text

  datatype Lang = JavaScript | TypeScript | Python | Java | Cpp | Go

  const LANGUAGES := [JavaScript, TypeScript, Python, Java, Cpp, Go]

  type Runtimes = map<Lang, real>

  datatype Test = Test(stdin: string, expectedStdout: string, isSample: bool)

  datatype Provenance = Provenance(source: string, sourceUrl: string, sourceLicense: string, sourceRef: string,
                                   attributionText: string)

  // `content` stands for the title, prompt, tags, editorial and the other columns copied or ranked
  // from the definition alone.
  datatype Definition = Definition(slug: string, signatureId: string, tests: seq<Test>, solutions: map<Lang, string>,
                                   provenance: Provenance, content: string)

  // ---------------------------------------------------------------- what keeps a problem inactive

  datatype Gap = NoTests | NoSignature | NoRuntimes | RuntimesMissing(langs: seq<Lang>)
    | NoSolutions | SolutionsMissing(langs: seq<Lang>)

  predicate AllBlank(s: string) {
    forall i :: 0 <= i < |s| ==> Text.IsSpace(s[i])
  }

  function Without(langs: seq<Lang>, have: set<Lang>): (r: seq<Lang>)
    ensures forall l :: l in r <==> l in langs && l !in have
    ensures |r| <= |langs|
    ensures |r| == |langs| <==> forall l :: l in langs ==> l !in have
  {
    if langs == [] then []
    else (if langs[0] in have then [] else [langs[0]]) + Without(langs[1..], have)
  }

  function Solved(def: Definition): set<Lang> {
    set l | l in def.solutions && !AllBlank(def.solutions[l])
  }

  function RuntimeGap(runtimes: Runtimes): seq<Gap> {
    var missing := Without(LANGUAGES, runtimes.Keys);
    if |missing| == |LANGUAGES| then [NoRuntimes] else if missing != [] then [RuntimesMissing(missing)] else []
  }

  function SolutionGap(def: Definition): seq<Gap> {
    var missing := Without(LANGUAGES, Solved(def));
    if |missing| == |LANGUAGES| then [NoSolutions] else if missing != [] then [SolutionsMissing(missing)] else []
  }

  function ShapeGap(def: Definition): seq<Gap> {
    (if def.tests == [] then [NoTests] else []) + (if def.signatureId == "" then [NoSignature] else [])
  }

  // No record of runtimes counts as a record that holds none.
  function BlockingGaps(def: Definition, runtimes: Option<Runtimes>): seq<Gap>
    decreases runtimes.None?
  {
    match runtimes
    case None => BlockingGaps(def, Some(map[]))
    case Some(measured) => ShapeGap(def) + RuntimeGap(measured) + SolutionGap(def)
  }

  predicate FullyMeasured(runtimes: Option<Runtimes>) {
    runtimes.Some? && forall l: Lang :: l in runtimes.value
  }

  predicate FullySolved(def: Definition) {
    forall l: Lang :: l in def.solutions && !AllBlank(def.solutions[l])
  }

  // A problem may be served only if it has tests, a signature, and a runtime and a worked solution in
  // every language.
  lemma {:induction false} Servable(def: Definition, runtimes: Option<Runtimes>)
    ensures BlockingGaps(def, runtimes) == [] <==>
        def.tests != [] && def.signatureId != "" && FullyMeasured(runtimes) && FullySolved(def)
    decreases runtimes.None?
  {
    if runtimes.None? {
      var none: Runtimes := map[];
      Servable(def, Some(none));
      assert JavaScript !in none;
    } else {
      RuntimeGaps(runtimes.value);
      SolutionGaps(def);
      AllEmpty(ShapeGap(def), RuntimeGap(runtimes.value), SolutionGap(def));
      AllEmpty(if def.tests == [] then [NoTests] else [], if def.signatureId == "" then [NoSignature] else [], []);
      assert ShapeGap(def) == ShapeGap(def) + [];
    }
  }

  lemma AllEmpty(a: seq<Gap>, b: seq<Gap>, c: seq<Gap>)
    ensures a + b + c == [] <==> a == [] && b == [] && c == []
  {
    assert |a + b + c| == |a| + |b| + |c|;
  }

  // What is missing is named, language by language, unless all are missing.
  lemma RuntimeGaps(runtimes: Runtimes)
    ensures RuntimeGap(runtimes) == [] <==> FullyMeasured(Some(runtimes))
    ensures NoRuntimes in RuntimeGap(runtimes) <==> forall l: Lang :: l !in runtimes
    ensures forall g :: g in RuntimeGap(runtimes) && g.RuntimesMissing? ==>
      forall l: Lang :: l in g.langs <==> l !in runtimes
  {
    EveryLanguage();
    NoneLeft(Without(LANGUAGES, runtimes.Keys));
  }

  lemma SolutionGaps(def: Definition)
    ensures SolutionGap(def) == [] <==> FullySolved(def)
    ensures NoSolutions in SolutionGap(def) <==> forall l: Lang :: l !in Solved(def)
    ensures forall g :: g in SolutionGap(def) && g.SolutionsMissing? ==>
      forall l: Lang :: l in g.langs <==> l !in Solved(def)
  {
    EveryLanguage();
    NoneLeft(Without(LANGUAGES, Solved(def)));
    assert forall l: Lang :: l in Solved(def) <==> l in def.solutions && !AllBlank(def.solutions[l]);
  }

  lemma NoneLeft(langs: seq<Lang>)
    ensures langs == [] <==> forall l :: l !in langs
  {
    if langs != [] {
      assert langs[0] in langs;
    }
  }

  lemma EveryLanguage()
    ensures forall l: Lang :: l in LANGUAGES
  {
    forall l: Lang
      ensures l in LANGUAGES
    {
      var k := match l
        case JavaScript => 0
        case TypeScript => 1
        case Python => 2
        case Java => 3
        case Cpp => 4
        case Go => 5;
      assert LANGUAGES[k] == l;
    }
  }

  // ---------------------------------------------------------------- the tables

  // The row's own columns; `from` is the definition the derived ones were last computed from.
  datatype Problem = Problem(id: nat, from: Definition, runtimes: Runtimes, active: bool)

  datatype Key = Key(problem: nat, ordinal: nat)
  datatype Case = Case(id: nat, test: Test)

  // `next` is an id no row has had.
  datatype Db = Db(problems: map<string, Problem>, cases: map<Key, Case>, next: nat)

  // Slugs and cases have their own ids, and every case belongs to a problem.
  ghost predicate Sound(db: Db) {
    && (forall s :: s in db.problems ==> db.problems[s].id < db.next)
    && (forall s, t :: s in db.problems && t in db.problems && s != t ==> db.problems[s].id != db.problems[t].id)
    && (forall k :: k in db.cases ==> db.cases[k].id < db.next)
    && (forall k :: k in db.cases ==> Owned(db, k))
  }

  ghost predicate Owned(db: Db, k: Key) {
    exists s :: s in db.problems && db.problems[s].id == k.problem
  }

  datatype Options = Options(measured: map<string, Runtimes>, dryRun: bool)
  datatype Report = Report(slug: string, created: bool, active: bool, gaps: seq<Gap>)

  predicate Acceptable(def: Definition, known: set<string>) {
    var p := def.provenance;
    def.signatureId in known && !AllBlank(p.source) && !AllBlank(p.sourceUrl) && !AllBlank(p.sourceLicense)
    && !AllBlank(p.sourceRef) && (p.sourceLicense == "CC0-1.0" || !AllBlank(p.attributionText))
  }

  function Measured(opts: Options, slug: string): Runtimes {
    if slug in opts.measured then opts.measured[slug] else map[]
  }

  // What this run measured replaces what was stored; a run that measured nothing keeps it.
  function Effective(db: Db, slug: string, opts: Options): Runtimes {
    if Measured(opts, slug) != map[] then Measured(opts, slug)
    else if slug in db.problems then db.problems[slug].runtimes
    else map[]
  }

  function UpsertProblem(db: Db, def: Definition, runtimes: Runtimes, active: bool): Db {
    if def.slug in db.problems then
      db.(problems := db.problems[def.slug := Problem(db.problems[def.slug].id, def, runtimes, active)])
    else
      db.(problems := db.problems[def.slug := Problem(db.next, def, runtimes, active)], next := db.next + 1)
  }

  function UpsertCase(db: Db, k: Key, t: Test): Db {
    if k in db.cases then db.(cases := db.cases[k := Case(db.cases[k].id, t)])
    else db.(cases := db.cases[k := Case(db.next, t)], next := db.next + 1)
  }

  function UpsertCases(db: Db, problem: nat, tests: seq<Test>): Db
    decreases |tests|
  {
    if tests == [] then db
    else
      var n := |tests| - 1;
      UpsertCase(UpsertCases(db, problem, tests[..n]), Key(problem, n), tests[n])
  }

  function DeleteFrom(db: Db, problem: nat, ordinal: nat): Db {
    db.(cases := map k | k in db.cases && !(k.problem == problem && k.ordinal >= ordinal) :: db.cases[k])
  }

  // The transaction of one definition.
  function ImportedOne(db: Db, def: Definition, opts: Options): Db {
    if opts.dryRun then db
    else
      var runtimes := Effective(db, def.slug, opts);
      var d := UpsertProblem(db, def, runtimes, BlockingGaps(def, Some(runtimes)) == []);
      var id := d.problems[def.slug].id;
      DeleteFrom(UpsertCases(d, id, def.tests), id, |def.tests|)
  }

  function ReportOn(db: Db, def: Definition, opts: Options): Report {
    var gaps := BlockingGaps(def, Some(Effective(db, def.slug, opts)));
    Report(def.slug, def.slug !in db.problems, gaps == [], gaps)
  }

  function Imported(db: Db, defs: seq<Definition>, opts: Options): Db
    decreases |defs|
  {
    if defs == [] then db
    else ImportedOne(Imported(db, defs[..|defs| - 1], opts), defs[|defs| - 1], opts)
  }

  function Reports(db: Db, defs: seq<Definition>, opts: Options): seq<Report>
    decreases |defs|
  {
    if defs == [] then []
    else
      var n := |defs| - 1;
      Reports(db, defs[..n], opts) + [ReportOn(Imported(db, defs[..n], opts), defs[n], opts)]
  }

  function Slugs(defs: seq<Definition>): set<string> {
    set d | d in defs :: d.slug
  }

  function Deactivated(db: Db, slugs: set<string>): Db {
    db.(problems := map s | s in db.problems :: if s in slugs then db.problems[s] else db.problems[s].(active := false))
  }

  // The definitions before the first that is refused.
  function Accepted(defs: seq<Definition>, known: set<string>): seq<Definition> {
    if defs == [] || !Acceptable(defs[0], known) then [] else [defs[0]] + Accepted(defs[1..], known)
  }

  function Closed(db: Db, complete: bool, defs: seq<Definition>, opts: Options): Db {
    if complete && !opts.dryRun && defs != [] then Deactivated(db, Slugs(defs)) else db
  }

  // A refused definition ends the run there and then: what came before it stays imported, and nothing
  // is deactivated.
  function Import(db: Db, defs: seq<Definition>, known: set<string>, opts: Options): (Db, Option<seq<Report>>) {
    var ok := Accepted(defs, known);
    var complete := |ok| == |defs|;
    (Closed(Imported(db, ok, opts), complete, defs, opts), if complete then Some(Reports(db, ok, opts)) else None)
  }

  // ---------------------------------------------------------------- one definition

  // Some cases of one problem written, nothing else touched, no row renamed.
  ghost predicate Upserted(db: Db, r: Db, p: nat, tests: seq<Test>) {
    UpsertedTests(db, r, p, tests) && UpsertedIds(db, r, p, tests)
  }

  ghost predicate UpsertedTests(db: Db, r: Db, p: nat, tests: seq<Test>) {
    && (forall k :: k in r.cases <==> k in db.cases || (k.problem == p && k.ordinal < |tests|))
    && (forall k :: k in r.cases && k.problem == p && k.ordinal < |tests| ==> r.cases[k].test == tests[k.ordinal])
  }

  ghost predicate UpsertedIds(db: Db, r: Db, p: nat, tests: seq<Test>)
    requires UpsertedTests(db, r, p, tests)
  {
    && r.problems == db.problems && r.next >= db.next
    && (forall k :: k in db.cases ==> r.cases[k].id == db.cases[k].id)
    && (forall k :: k in db.cases && !(k.problem == p && k.ordinal < |tests|) ==> r.cases[k] == db.cases[k])
    && (forall k :: k in r.cases && k !in db.cases ==> db.next <= r.cases[k].id < r.next)
  }

  lemma {:induction false} CasesUpserted(db: Db, p: nat, tests: seq<Test>)
    ensures Upserted(db, UpsertCases(db, p, tests), p, tests)
    decreases |tests|
  {
    if tests != [] {
      var n := |tests| - 1;
      CasesUpserted(db, p, tests[..n]);
      OneMoreCase(db, UpsertCases(db, p, tests[..n]), p, tests);
    }
  }

  lemma OneMoreCase(db: Db, r: Db, p: nat, tests: seq<Test>)
    requires tests != [] && Upserted(db, r, p, tests[..|tests| - 1])
    ensures Upserted(db, UpsertCase(r, Key(p, |tests| - 1), tests[|tests| - 1]), p, tests)
  {
    MoreTests(db, r, p, tests);
  }

  lemma MoreTests(db: Db, r: Db, p: nat, tests: seq<Test>)
    requires tests != [] && UpsertedTests(db, r, p, tests[..|tests| - 1])
    ensures UpsertedTests(db, UpsertCase(r, Key(p, |tests| - 1), tests[|tests| - 1]), p, tests)
  {
    assert forall i :: 0 <= i < |tests| - 1 ==> tests[..|tests| - 1][i] == tests[i];
  }

  // A transaction touches the row of its slug and that row's cases, which become exactly the ordinals
  // 0..n-1 holding the definition's tests; rows that were there keep their ids, new ones get fresh ids.
  ghost predicate RowReplaced(db: Db, r: Db, def: Definition, opts: Options) {
    && r.next >= db.next && def.slug in r.problems
    && var p := r.problems[def.slug];
    && (def.slug in db.problems ==> p.id == db.problems[def.slug].id)
    && (def.slug !in db.problems ==> db.next <= p.id < r.next)
    && p.from == def && p.runtimes == Effective(db, def.slug, opts)
    && (p.active <==> BlockingGaps(def, Some(p.runtimes)) == [])
    && (forall s :: s != def.slug ==> (s in r.problems <==> s in db.problems))
    && (forall s :: s in db.problems && s != def.slug ==> r.problems[s] == db.problems[s])
  }

  ghost predicate CasesReplaced(db: Db, r: Db, p: nat, tests: seq<Test>) {
    && (forall k: Key :: k.problem == p ==> (k in r.cases <==> k.ordinal < |tests|))
    && (forall k :: k in r.cases && k.problem == p ==> r.cases[k].test == tests[k.ordinal])
    && (forall k :: k in r.cases && k in db.cases ==> r.cases[k].id == db.cases[k].id)
    && (forall k :: k in r.cases && k !in db.cases ==> db.next <= r.cases[k].id < r.next)
    && (forall k: Key :: k.problem != p ==> (k in r.cases <==> k in db.cases))
    && (forall k :: k in db.cases && k.problem != p ==> r.cases[k] == db.cases[k])
  }

  ghost predicate Replaced(db: Db, r: Db, def: Definition, opts: Options) {
    RowReplaced(db, r, def, opts) && CasesReplaced(db, r, r.problems[def.slug].id, def.tests)
  }

  lemma OneReplaced(db: Db, def: Definition, opts: Options)
    requires !opts.dryRun
    ensures Replaced(db, ImportedOne(db, def, opts), def, opts)
  {
    var runtimes := Effective(db, def.slug, opts);
    var d := UpsertProblem(db, def, runtimes, BlockingGaps(def, Some(runtimes)) == []);
    var id := d.problems[def.slug].id;
    var u := UpsertCases(d, id, def.tests);
    CasesUpserted(d, id, def.tests);
    TailDeleted(d, u, id, def.tests);
    RowUpserted(db, def, opts);
    ThenCases(db, d, DeleteFrom(u, id, |def.tests|), def, opts);
  }

  lemma RowUpserted(db: Db, def: Definition, opts: Options)
    ensures var runtimes := Effective(db, def.slug, opts);
      var d := UpsertProblem(db, def, runtimes, BlockingGaps(def, Some(runtimes)) == []);
      RowReplaced(db, d, def, opts) && d.cases == db.cases
  {
  }

  lemma ThenCases(db: Db, d: Db, r: Db, def: Definition, opts: Options)
    requires RowReplaced(db, d, def, opts) && d.cases == db.cases
    requires CasesReplaced(d, r, d.problems[def.slug].id, def.tests) && r.problems == d.problems && r.next >= d.next
    ensures Replaced(db, r, def, opts)
  {
  }

  lemma TailDeleted(d: Db, u: Db, p: nat, tests: seq<Test>)
    requires Upserted(d, u, p, tests)
    ensures CasesReplaced(d, DeleteFrom(u, p, |tests|), p, tests)
    ensures DeleteFrom(u, p, |tests|).problems == d.problems && DeleteFrom(u, p, |tests|).next >= d.next
  {
  }

  lemma OneSound(db: Db, def: Definition, opts: Options)
    requires Sound(db)
    ensures Sound(ImportedOne(db, def, opts))
  {
    if !opts.dryRun {
      OneReplaced(db, def, opts);
      ReplacedSound(db, ImportedOne(db, def, opts), def, opts);
    }
  }

  lemma ReplacedSound(db: Db, r: Db, def: Definition, opts: Options)
    requires Sound(db) && Replaced(db, r, def, opts)
    ensures Sound(r)
  {
    forall k | k in r.cases
      ensures Owned(r, k) && r.cases[k].id < r.next
    {
      if k.problem == r.problems[def.slug].id {
        assert def.slug in r.problems;
      } else {
        assert k in db.cases && Owned(db, k);
      }
    }
  }

  // What is measured replaces what is stored, and is not merged into it: measuring a served problem in
  // some languages only takes it out of service, whatever was known about the others.
  lemma PartialMeasurementDeactivates(db: Db, def: Definition, opts: Options)
    requires !opts.dryRun && Measured(opts, def.slug) != map[] && !FullyMeasured(Some(Measured(opts, def.slug)))
    ensures var r := ImportedOne(db, def, opts);
      && def.slug in r.problems && !r.problems[def.slug].active
      && r.problems[def.slug].runtimes == Measured(opts, def.slug)
  {
    OneReplaced(db, def, opts);
    Servable(def, Some(Measured(opts, def.slug)));
  }

  // ---------------------------------------------------------------- what the tables say, ids aside

  datatype Listing = Listing(from: Definition, runtimes: Runtimes, active: bool, tests: map<nat, Test>)

  ghost function TestsOf(db: Db, p: nat): map<nat, Test> {
    map k | k in db.cases && k.problem == p :: k.ordinal := db.cases[k].test
  }

  ghost function Catalogue(db: Db): map<string, Listing> {
    map s | s in db.problems ::
      Listing(db.problems[s].from, db.problems[s].runtimes, db.problems[s].active, TestsOf(db, db.problems[s].id))
  }

  function Numbered(tests: seq<Test>): map<nat, Test> {
    map i | 0 <= i < |tests| :: tests[i]
  }

  // What the catalogue holds for a slug after these definitions have been imported over `c`: the last
  // definition with that slug decides.
  function Listed(def: Definition, runtimes: Runtimes): Listing {
    Listing(def, runtimes, BlockingGaps(def, Some(runtimes)) == [], Numbered(def.tests))
  }

  function Kept(c: map<string, Listing>, slug: string, opts: Options): Runtimes {
    if Measured(opts, slug) != map[] then Measured(opts, slug) else if slug in c then c[slug].runtimes else map[]
  }

  function Last(defs: seq<Definition>, slug: string): (d: Definition)
    requires slug in Slugs(defs)
    ensures d in defs && d.slug == slug
    decreases |defs|
  {
    var n := |defs| - 1;
    if defs[n].slug == slug then defs[n] else
      assert slug in Slugs(defs[..n]) by {
        var d :| d in defs && d.slug == slug;
      }
      Last(defs[..n], slug)
  }

  function Written(c: map<string, Listing>, defs: seq<Definition>, opts: Options): map<string, Listing> {
    map s | s in c.Keys + Slugs(defs) ::
      if s in Slugs(defs) then Listed(Last(defs, s), Kept(c, s, opts)) else c[s]
  }

  lemma OwnTests(db: Db, r: Db, p: nat, tests: seq<Test>)
    requires CasesReplaced(db, r, p, tests)
    ensures TestsOf(r, p) == Numbered(tests)
  {
    forall o: nat
      ensures o in TestsOf(r, p) <==> o < |tests|
      ensures o < |tests| ==> TestsOf(r, p)[o] == tests[o]
    {
      var k := Key(p, o);
      assert k in r.cases <==> o < |tests|;
    }
  }

  lemma OtherTests(db: Db, r: Db, p: nat, tests: seq<Test>, q: nat)
    requires CasesReplaced(db, r, p, tests) && p != q
    ensures TestsOf(r, q) == TestsOf(db, q)
  {
    forall o: nat
      ensures o in TestsOf(r, q) <==> o in TestsOf(db, q)
      ensures o in TestsOf(r, q) ==> TestsOf(r, q)[o] == TestsOf(db, q)[o]
    {
      var k := Key(q, o);
      assert k in r.cases <==> k in db.cases;
    }
  }

  lemma OneCatalogue(db: Db, def: Definition, opts: Options)
    requires Sound(db) && !opts.dryRun
    ensures Catalogue(ImportedOne(db, def, opts))
      == Catalogue(db)[def.slug := Listed(def, Kept(Catalogue(db), def.slug, opts))]
  {
    var r := ImportedOne(db, def, opts);
    OneReplaced(db, def, opts);
    OwnListing(db, r, def, opts);
    ListingKeys(db, r, def, opts);
    forall s | s in db.problems && s != def.slug
      ensures Catalogue(r)[s] == Catalogue(db)[s]
    {
      OtherListing(db, r, def, opts, s);
    }
    OnlyOneChanged(Catalogue(r), Catalogue(db), def.slug);
  }

  lemma OwnListing(db: Db, r: Db, def: Definition, opts: Options)
    requires Replaced(db, r, def, opts)
    ensures Catalogue(r)[def.slug] == Listed(def, Kept(Catalogue(db), def.slug, opts))
  {
    OwnTests(db, r, r.problems[def.slug].id, def.tests);
    assert Kept(Catalogue(db), def.slug, opts) == Effective(db, def.slug, opts);
  }

  lemma ListingKeys(db: Db, r: Db, def: Definition, opts: Options)
    requires RowReplaced(db, r, def, opts)
    ensures Catalogue(r).Keys == Catalogue(db).Keys + {def.slug}
  {
    CatalogueKeys(r);
    CatalogueKeys(db);
    assert r.problems.Keys == db.problems.Keys + {def.slug};
  }

  lemma CatalogueKeys(db: Db)
    ensures Catalogue(db).Keys == db.problems.Keys
  {
  }

  lemma OtherListing(db: Db, r: Db, def: Definition, opts: Options, s: string)
    requires Sound(db) && Replaced(db, r, def, opts) && s in db.problems && s != def.slug
    ensures s in r.problems && Catalogue(r)[s] == Catalogue(db)[s]
  {
    OtherTests(db, r, r.problems[def.slug].id, def.tests, db.problems[s].id);
  }

  lemma OnlyOneChanged<V>(a: map<string, V>, b: map<string, V>, s: string)
    requires s in a && a.Keys == b.Keys + {s}
    requires forall t :: t in b && t != s ==> a[t] == b[t]
    ensures a == b[s := a[s]]
  {
  }

  lemma {:induction false} AllSound(db: Db, defs: seq<Definition>, opts: Options)
    requires Sound(db)
    ensures Sound(Imported(db, defs, opts))
    decreases |defs|
  {
    if defs != [] {
      var n := |defs| - 1;
      AllSound(db, defs[..n], opts);
      OneSound(Imported(db, defs[..n], opts), defs[n], opts);
    }
  }

  lemma {:induction false} AllCatalogue(db: Db, defs: seq<Definition>, opts: Options)
    requires Sound(db) && !opts.dryRun
    ensures Catalogue(Imported(db, defs, opts)) == Written(Catalogue(db), defs, opts)
    decreases |defs|
  {
    var c := Catalogue(db);
    if defs == [] {
      assert Slugs(defs) == {};
    } else {
      var n := |defs| - 1;
      AllCatalogue(db, defs[..n], opts);
      AllSound(db, defs[..n], opts);
      OneCatalogue(Imported(db, defs[..n], opts), defs[n], opts);
      WrittenOneMore(c, defs, opts);
    }
  }

  lemma SlugsOneMore(defs: seq<Definition>)
    requires defs != []
    ensures Slugs(defs) == Slugs(defs[..|defs| - 1]) + {defs[|defs| - 1].slug}
  {
    assert defs == defs[..|defs| - 1] + [defs[|defs| - 1]];
  }

  lemma KeptOnce(c: map<string, Listing>, defs: seq<Definition>, opts: Options, slug: string)
    ensures Kept(Written(c, defs, opts), slug, opts) == Kept(c, slug, opts)
  {
  }

  lemma WrittenOneMore(c: map<string, Listing>, defs: seq<Definition>, opts: Options)
    requires defs != []
    ensures var n := |defs| - 1; var w := Written(c, defs[..n], opts);
      Written(c, defs, opts) == w[defs[n].slug := Listed(defs[n], Kept(w, defs[n].slug, opts))]
  {
    var n := |defs| - 1;
    var w := Written(c, defs[..n], opts);
    forall s | s in w && s != defs[n].slug
      ensures s in Written(c, defs, opts) && Written(c, defs, opts)[s] == w[s]
    {
      SlugsOneMore(defs);
      WrittenAt(c, defs, opts, s);
    }
    WrittenLast(c, defs, opts);
    OnlyOneChanged(Written(c, defs, opts), w, defs[n].slug);
  }

  lemma WrittenLast(c: map<string, Listing>, defs: seq<Definition>, opts: Options)
    requires defs != []
    ensures var n := |defs| - 1; var w := Written(c, defs[..n], opts);
      && Written(c, defs, opts).Keys == w.Keys + {defs[n].slug}
      && Written(c, defs, opts)[defs[n].slug] == Listed(defs[n], Kept(w, defs[n].slug, opts))
  {
    SlugsOneMore(defs);
    KeptOnce(c, defs[..|defs| - 1], opts, defs[|defs| - 1].slug);
  }

  lemma WrittenAt(c: map<string, Listing>, defs: seq<Definition>, opts: Options, s: string)
    requires defs != [] && s in c.Keys + Slugs(defs) && s != defs[|defs| - 1].slug
    ensures s in Written(c, defs[..|defs| - 1], opts)
    ensures Written(c, defs, opts)[s] == Written(c, defs[..|defs| - 1], opts)[s]
  {
    SlugsOneMore(defs);
    if s in Slugs(defs) {
      assert Last(defs, s) == Last(defs[..|defs| - 1], s);
    }
  }

  // ---------------------------------------------------------------- a whole run

  function Swept(c: map<string, Listing>, slugs: set<string>): map<string, Listing> {
    map s | s in c :: if s in slugs then c[s] else c[s].(active := false)
  }

  function Expected(c: map<string, Listing>, defs: seq<Definition>, known: set<string>, opts: Options)
    : map<string, Listing>
  {
    if opts.dryRun || defs == [] then c
    else if |Accepted(defs, known)| < |defs| then Written(c, Accepted(defs, known), opts)
    else Swept(Written(c, defs, opts), Slugs(defs))
  }

  lemma {:induction false} AcceptedAll(defs: seq<Definition>, known: set<string>)
    ensures |Accepted(defs, known)| <= |defs|
    ensures |Accepted(defs, known)| == |defs| ==> Accepted(defs, known) == defs
    decreases |defs|
  {
    if defs != [] {
      AcceptedAll(defs[1..], known);
    }
  }

  lemma {:induction false} DryImported(db: Db, defs: seq<Definition>, opts: Options)
    requires opts.dryRun
    ensures Imported(db, defs, opts) == db
    decreases |defs|
  {
    if defs != [] {
      DryImported(db, defs[..|defs| - 1], opts);
    }
  }

  lemma DeactivatedSound(db: Db, slugs: set<string>)
    requires Sound(db)
    ensures Sound(Deactivated(db, slugs))
  {
    var r := Deactivated(db, slugs);
    forall k | k in r.cases
      ensures Owned(r, k)
    {
      assert Owned(db, k);
      var s :| s in db.problems && db.problems[s].id == k.problem;
      assert s in r.problems;
    }
  }

  lemma DeactivatedCatalogue(db: Db, slugs: set<string>)
    ensures Catalogue(Deactivated(db, slugs)) == Swept(Catalogue(db), slugs)
  {
    var r := Deactivated(db, slugs);
    forall s | s in r.problems
      ensures Catalogue(r)[s] == Swept(Catalogue(db), slugs)[s]
    {
      assert TestsOf(r, r.problems[s].id) == TestsOf(db, db.problems[s].id);
    }
  }

  // What any import leaves behind, ids aside: every definition up to a refused one is listed as its
  // last version says, with exactly its tests and the runtimes measured or kept; and a run that was
  // neither empty, dry nor refused leaves everything else inactive and otherwise as it was.
  lemma ImportCatalogue(db: Db, defs: seq<Definition>, known: set<string>, opts: Options)
    requires Sound(db)
    ensures Sound(Import(db, defs, known, opts).0)
    ensures Catalogue(Import(db, defs, known, opts).0) == Expected(Catalogue(db), defs, known, opts)
  {
    var ok := Accepted(defs, known);
    AcceptedAll(defs, known);
    AllSound(db, ok, opts);
    if opts.dryRun {
      DryImported(db, ok, opts);
    } else if defs != [] {
      AllCatalogue(db, ok, opts);
      if |ok| == |defs| {
        DeactivatedSound(Imported(db, ok, opts), Slugs(defs));
        DeactivatedCatalogue(Imported(db, ok, opts), Slugs(defs));
      }
    }
  }

  // A row is served after a complete import exactly if its slug is in the corpus and its definition
  // has no gap for the runtimes now stored with it.
  lemma ActiveExactly(db: Db, defs: seq<Definition>, known: set<string>, opts: Options, slug: string)
    requires Sound(db) && !opts.dryRun && defs != [] && Accepted(defs, known) == defs
    ensures var r := Import(db, defs, known, opts).0;
      slug in r.problems && r.problems[slug].active <==>
        && slug in Slugs(defs) && slug in r.problems
        && BlockingGaps(Last(defs, slug), Some(r.problems[slug].runtimes)) == []
  {
    var r := Import(db, defs, known, opts).0;
    ImportCatalogue(db, defs, known, opts);
    assert r.problems.Keys == Catalogue(r).Keys;
    if slug in r.problems {
      assert Catalogue(r)[slug].active == r.problems[slug].active;
      assert Catalogue(r)[slug].runtimes == r.problems[slug].runtimes;
    }
  }

  // Its cases are exactly the ordinals 0..n-1 of the last definition with that slug.
  lemma TestsExactly(db: Db, defs: seq<Definition>, known: set<string>, opts: Options, slug: string, ordinal: nat)
    requires Sound(db) && !opts.dryRun && slug in Slugs(Accepted(defs, known))
    ensures var r := Import(db, defs, known, opts).0; var tests := Last(Accepted(defs, known), slug).tests;
      && slug in r.problems
      && var k := Key(r.problems[slug].id, ordinal);
        (k in r.cases <==> ordinal < |tests|) && (k in r.cases ==> r.cases[k].test == tests[ordinal])
  {
    var ok := Accepted(defs, known);
    var d := Imported(db, ok, opts);
    AllSound(db, ok, opts);
    AllCatalogue(db, ok, opts);
    AfterLoop(db, defs, known, opts);
    assert slug in Catalogue(d) && Catalogue(d)[slug].tests == Numbered(Last(ok, slug).tests);
    ListedCase(d, d.problems[slug].id, ordinal);
  }

  // The final deactivation changes nothing but `active`.
  ghost predicate SameButActive(r: Db, d: Db) {
    && r.cases == d.cases && r.next == d.next && r.problems.Keys == d.problems.Keys
    && forall s :: s in d.problems ==>
      r.problems[s].id == d.problems[s].id && r.problems[s].runtimes == d.problems[s].runtimes
  }

  lemma AfterLoop(db: Db, defs: seq<Definition>, known: set<string>, opts: Options)
    ensures SameButActive(Import(db, defs, known, opts).0, Imported(db, Accepted(defs, known), opts))
  {
    ClosedKeeps(Imported(db, Accepted(defs, known), opts), |Accepted(defs, known)| == |defs|, defs, opts);
  }

  lemma ClosedKeeps(d: Db, complete: bool, defs: seq<Definition>, opts: Options)
    ensures SameButActive(Closed(d, complete, defs, opts), d)
  {
  }

  lemma ListedCase(r: Db, p: nat, ordinal: nat)
    ensures ordinal in TestsOf(r, p) <==> Key(p, ordinal) in r.cases
    ensures ordinal in TestsOf(r, p) ==> TestsOf(r, p)[ordinal] == r.cases[Key(p, ordinal)].test
  {
  }

  // ---------------------------------------------------------------- rows and ids

  // No row is ever lost or renumbered, and one this run did not measure keeps its runtimes, whether
  // the run was complete, refused part-way, or dry.
  lemma {:induction false} RowsKept(db: Db, defs: seq<Definition>, opts: Options, slug: string)
    requires slug in db.problems
    ensures var r := Imported(db, defs, opts);
      && db.next <= r.next && slug in r.problems && r.problems[slug].id == db.problems[slug].id
      && (Measured(opts, slug) == map[] ==> r.problems[slug].runtimes == db.problems[slug].runtimes)
    decreases |defs|
  {
    if opts.dryRun {
      DryImported(db, defs, opts);
    } else if defs != [] {
      var n := |defs| - 1;
      RowsKept(db, defs[..n], opts, slug);
      OneReplaced(Imported(db, defs[..n], opts), defs[n], opts);
    }
  }

  lemma RuntimesKept(db: Db, defs: seq<Definition>, known: set<string>, opts: Options, slug: string)
    requires slug in db.problems
    ensures var r := Import(db, defs, known, opts).0;
      && slug in r.problems && r.problems[slug].id == db.problems[slug].id
      && (Measured(opts, slug) == map[] ==> r.problems[slug].runtimes == db.problems[slug].runtimes)
  {
    RowsKept(db, Accepted(defs, known), opts, slug);
    AfterLoop(db, defs, known, opts);
  }

  lemma {:induction false} NextGrows(db: Db, defs: seq<Definition>, opts: Options)
    ensures db.next <= Imported(db, defs, opts).next
    decreases |defs|
  {
    if defs != [] {
      var n := |defs| - 1;
      NextGrows(db, defs[..n], opts);
      if !opts.dryRun {
        OneReplaced(Imported(db, defs[..n], opts), defs[n], opts);
      }
    }
  }

  // The definitions with this slug all have more than `ordinal` tests.
  predicate Covered(defs: seq<Definition>, slug: string, ordinal: nat) {
    forall d :: d in defs && d.slug == slug ==> ordinal < |d.tests|
  }

  lemma {:induction false} CaseKept(db: Db, defs: seq<Definition>, opts: Options, slug: string, ordinal: nat)
    requires Sound(db) && !opts.dryRun && slug in db.problems && Key(db.problems[slug].id, ordinal) in db.cases
    requires Covered(defs, slug, ordinal)
    ensures var k := Key(db.problems[slug].id, ordinal); var r := Imported(db, defs, opts);
      k in r.cases && r.cases[k].id == db.cases[k].id
    decreases |defs|
  {
    if defs != [] {
      var n := |defs| - 1;
      var d := Imported(db, defs[..n], opts);
      CaseKept(db, defs[..n], opts, slug, ordinal);
      RowsKept(db, defs[..n], opts, slug);
      AllSound(db, defs[..n], opts);
      OneReplaced(d, defs[n], opts);
      assert defs[n] in defs;
    }
  }

  // Otherwise the row is deleted on the way, and if it comes back it comes back as a new row.
  lemma {:induction false} CaseRenewed(db: Db, defs: seq<Definition>, opts: Options, slug: string, ordinal: nat)
    requires Sound(db) && !opts.dryRun && slug in db.problems
    requires !Covered(defs, slug, ordinal)
    ensures var k := Key(db.problems[slug].id, ordinal); var r := Imported(db, defs, opts);
      k in r.cases ==> r.cases[k].id >= db.next
    decreases |defs|
  {
    var n := |defs| - 1;
    var d := Imported(db, defs[..n], opts);
    var k := Key(db.problems[slug].id, ordinal);
    RowsKept(db, defs[..n], opts, slug);
    if !Covered(defs[..n], slug, ordinal) {
      CaseRenewed(db, defs[..n], opts, slug, ordinal);
      StillRenewed(db.next, d, defs[n], opts, k);
      assert Imported(db, defs, opts) == ImportedOne(d, defs[n], opts);
    } else {
      LastShort(defs, slug, ordinal);
      CaseDeleted(d, defs[n], opts, ordinal);
      assert Imported(db, defs, opts) == ImportedOne(d, defs[n], opts);
    }
  }

  lemma LastShort(defs: seq<Definition>, slug: string, ordinal: nat)
    requires !Covered(defs, slug, ordinal) && defs != [] && Covered(defs[..|defs| - 1], slug, ordinal)
    ensures defs[|defs| - 1].slug == slug && |defs[|defs| - 1].tests| <= ordinal
  {
    var d :| d in defs && d.slug == slug && |d.tests| <= ordinal;
    assert d !in defs[..|defs| - 1];
  }

  lemma StillRenewed(next: nat, db: Db, def: Definition, opts: Options, k: Key)
    requires !opts.dryRun && next <= db.next && (k in db.cases ==> db.cases[k].id >= next)
    ensures k in ImportedOne(db, def, opts).cases ==> ImportedOne(db, def, opts).cases[k].id >= next
  {
    OneReplaced(db, def, opts);
  }

  lemma CaseDeleted(db: Db, def: Definition, opts: Options, ordinal: nat)
    requires !opts.dryRun && def.slug in db.problems && ordinal >= |def.tests|
    ensures Key(db.problems[def.slug].id, ordinal) !in ImportedOne(db, def, opts).cases
  {
    OneReplaced(db, def, opts);
  }

  // ---------------------------------------------------------------- running it twice

  lemma {:induction false} AcceptedIn(defs: seq<Definition>, known: set<string>)
    ensures forall d :: d in Accepted(defs, known) ==> d in defs
    decreases |defs|
  {
    if defs != [] {
      AcceptedIn(defs[1..], known);
    }
  }

  // Writing over a catalogue that already lists what would be written changes nothing.
  lemma WrittenTwice(c: map<string, Listing>, w: map<string, Listing>, defs: seq<Definition>, opts: Options)
    requires w.Keys == c.Keys + Slugs(defs)
    requires forall s :: s in Slugs(defs) ==> w[s] == Listed(Last(defs, s), Kept(c, s, opts))
    ensures Written(w, defs, opts) == w
  {
    forall s | s in w
      ensures Written(w, defs, opts)[s] == w[s]
    {
      if s in Slugs(defs) {
        assert Kept(w, s, opts) == Kept(c, s, opts);
      }
    }
  }

  lemma ImportTwice(c: map<string, Listing>, defs: seq<Definition>, opts: Options)
    ensures Written(Written(c, defs, opts), defs, opts) == Written(c, defs, opts)
  {
    WrittenTwice(c, Written(c, defs, opts), defs, opts);
  }

  lemma ImportSweepTwice(c: map<string, Listing>, defs: seq<Definition>, opts: Options)
    ensures var w := Swept(Written(c, defs, opts), Slugs(defs));
      Swept(Written(w, defs, opts), Slugs(defs)) == w
  {
    var w := Swept(Written(c, defs, opts), Slugs(defs));
    WrittenTwice(c, w, defs, opts);
    SweptTwice(Written(c, defs, opts), Slugs(defs));
  }

  lemma ExpectedTwice(c: map<string, Listing>, defs: seq<Definition>, known: set<string>, opts: Options)
    ensures Expected(Expected(c, defs, known, opts), defs, known, opts) == Expected(c, defs, known, opts)
  {
    ImportTwice(c, Accepted(defs, known), opts);
    ImportSweepTwice(c, defs, opts);
  }

  lemma SweptTwice(c: map<string, Listing>, slugs: set<string>)
    ensures Swept(Swept(c, slugs), slugs) == Swept(c, slugs)
  {
  }

  // No definition has fewer tests than the last definition of its slug. Definitions with distinct slugs
  // satisfy it.
  predicate NoneOutgrown(defs: seq<Definition>) {
    forall d :: d in defs ==> |d.tests| >= |Last(defs, d.slug).tests|
  }

  predicate DistinctSlugs(defs: seq<Definition>) {
    forall i, j :: 0 <= i < j < |defs| ==> defs[i].slug != defs[j].slug
  }

  lemma DistinctNoneOutgrown(defs: seq<Definition>)
    requires DistinctSlugs(defs)
    ensures NoneOutgrown(defs)
  {
  }

  // Running the same import again leaves the same problem rows, ids and all, and the same cases.
  lemma SameRows(db: Db, defs: seq<Definition>, known: set<string>, opts: Options)
    requires Sound(db)
    ensures var once := Import(db, defs, known, opts).0; var twice := Import(once, defs, known, opts).0;
      && twice.problems == once.problems
      && twice.cases.Keys == once.cases.Keys
      && (forall k :: k in once.cases ==> once.cases[k].test == twice.cases[k].test)
  {
    var once := Import(db, defs, known, opts).0;
    var twice := Import(once, defs, known, opts).0;
    ImportCatalogue(db, defs, known, opts);
    ImportCatalogue(once, defs, known, opts);
    ExpectedTwice(Catalogue(db), defs, known, opts);
    forall s | s in once.problems
      ensures s in twice.problems && twice.problems[s].id == once.problems[s].id
    {
      RuntimesKept(once, defs, known, opts, s);
    }
    SameProblems(once, twice);
    SameCases(once, twice);
  }

  lemma DryRunChangesNothing(db: Db, defs: seq<Definition>, known: set<string>, opts: Options)
    requires opts.dryRun
    ensures Import(db, defs, known, opts).0 == db
  {
    DryImported(db, Accepted(defs, known), opts);
  }

  // And each case is the same row, with the same id, exactly if nothing is written or no accepted
  // definition has fewer tests than the last definition of its slug.
  lemma SameRowsIff(db: Db, defs: seq<Definition>, known: set<string>, opts: Options)
    requires Sound(db)
    ensures var once := Import(db, defs, known, opts).0; var twice := Import(once, defs, known, opts).0;
      twice.cases == once.cases <==> opts.dryRun || NoneOutgrown(Accepted(defs, known))
  {
    var once := Import(db, defs, known, opts).0;
    var twice := Import(once, defs, known, opts).0;
    if opts.dryRun {
      DryRunChangesNothing(once, defs, known, opts);
    } else if NoneOutgrown(Accepted(defs, known)) {
      SameRows(db, defs, known, opts);
      SameIds(db, defs, known, opts);
      SameCaseRows(once.cases, twice.cases);
    } else {
      SomeIdChanges(db, defs, known, opts);
    }
  }

  lemma SameCaseRows(a: map<Key, Case>, b: map<Key, Case>)
    requires a.Keys == b.Keys
    requires forall k :: k in a ==> a[k].test == b[k].test
    requires forall k :: k in a && k in b ==> b[k].id == a[k].id
    ensures a == b
  {
    forall k | k in a
      ensures a[k] == b[k]
    {
    }
  }

  lemma SameProblems(a: Db, b: Db)
    requires Catalogue(a) == Catalogue(b)
    requires forall s :: s in a.problems ==> s in b.problems && b.problems[s].id == a.problems[s].id
    ensures a.problems == b.problems
  {
    assert a.problems.Keys == Catalogue(a).Keys == Catalogue(b).Keys == b.problems.Keys;
    forall s | s in a.problems
      ensures a.problems[s] == b.problems[s]
    {
      assert Catalogue(a)[s] == Catalogue(b)[s];
    }
  }

  lemma SameCases(a: Db, b: Db)
    requires Sound(a) && Sound(b) && Catalogue(a) == Catalogue(b) && a.problems == b.problems
    ensures a.cases.Keys == b.cases.Keys
    ensures forall k :: k in a.cases ==> a.cases[k].test == b.cases[k].test
  {
    forall k: Key
      ensures k in a.cases <==> k in b.cases
      ensures k in a.cases ==> a.cases[k].test == b.cases[k].test
    {
      if k in a.cases || k in b.cases {
        SameCase(a, b, k);
      }
    }
  }

  lemma SameCase(a: Db, b: Db, k: Key)
    requires Catalogue(a) == Catalogue(b) && a.problems == b.problems
    requires k in a.cases || k in b.cases
    requires k in a.cases ==> Owned(a, k)
    requires k in b.cases ==> Owned(b, k)
    ensures k in a.cases && k in b.cases && a.cases[k].test == b.cases[k].test
  {
    var s :| s in a.problems && a.problems[s].id == k.problem;
    assert Catalogue(a)[s] == Catalogue(b)[s];
    ListedCase(a, k.problem, k.ordinal);
    ListedCase(b, k.problem, k.ordinal);
  }

  lemma SameIds(db: Db, defs: seq<Definition>, known: set<string>, opts: Options)
    requires Sound(db) && !opts.dryRun && NoneOutgrown(Accepted(defs, known))
    ensures var once := Import(db, defs, known, opts).0; var twice := Import(once, defs, known, opts).0;
      forall k :: k in once.cases && k in twice.cases ==> twice.cases[k].id == once.cases[k].id
  {
    var ok := Accepted(defs, known);
    var once := Import(db, defs, known, opts).0;
    var twice := Import(once, defs, known, opts).0;
    ImportCatalogue(db, defs, known, opts);
    AfterLoop(once, defs, known, opts);
    forall k | k in once.cases && k in twice.cases
      ensures twice.cases[k].id == once.cases[k].id
    {
      assert Owned(once, k);
      var s :| s in once.problems && once.problems[s].id == k.problem;
      if s in Slugs(ok) {
        TestsExactly(db, defs, known, opts, s, k.ordinal);
      }
      assert Covered(ok, s, k.ordinal);
      CaseKept(once, ok, opts, s, k.ordinal);
    }
  }

  lemma SomeIdChanges(db: Db, defs: seq<Definition>, known: set<string>, opts: Options)
    requires Sound(db) && !opts.dryRun && !NoneOutgrown(Accepted(defs, known))
    ensures var once := Import(db, defs, known, opts).0; var twice := Import(once, defs, known, opts).0;
      twice.cases != once.cases
  {
    var ok := Accepted(defs, known);
    var d :| d in ok && |d.tests| < |Last(ok, d.slug).tests|;
    ImportCatalogue(db, defs, known, opts);
    TestsExactly(db, defs, known, opts, d.slug, |d.tests|);
    OutgrownChanges(Import(db, defs, known, opts).0, defs, known, opts, d);
  }

  lemma OutgrownChanges(once: Db, defs: seq<Definition>, known: set<string>, opts: Options, d: Definition)
    requires Sound(once) && !opts.dryRun && d in Accepted(defs, known)
    requires d.slug in once.problems && Key(once.problems[d.slug].id, |d.tests|) in once.cases
    ensures Import(once, defs, known, opts).0.cases != once.cases
  {
    var k := Key(once.problems[d.slug].id, |d.tests|);
    assert !Covered(Accepted(defs, known), d.slug, |d.tests|);
    CaseRenewed(once, Accepted(defs, known), opts, d.slug, |d.tests|);
    AfterLoop(once, defs, known, opts);
    assert once.cases[k].id < once.next;
  }

  // ---------------------------------------------------------------- dry runs

  predicate NoneNewTwice(db: Db, defs: seq<Definition>) {
    forall i, j :: 0 <= i < j < |defs| && defs[i].slug == defs[j].slug ==> defs[i].slug in db.problems
  }

  // A dry run changes nothing, and reports what the real run would report, slug by slug, unless a slug
  // not yet stored is defined twice: then only the real run sees the second one as an update.
  lemma {:induction false} DryRunReports(db: Db, defs: seq<Definition>, opts: Options)
    requires Sound(db) && !opts.dryRun
    ensures var dry := opts.(dryRun := true);
      && Imported(db, defs, dry) == db
      && (Reports(db, defs, dry) == Reports(db, defs, opts) <==> NoneNewTwice(db, defs))
    decreases |defs|
  {
    var dry := opts.(dryRun := true);
    DryImported(db, defs, dry);
    if defs != [] {
      var n := |defs| - 1;
      DryRunReports(db, defs[..n], opts);
      SameReport(db, defs, opts);
      DryImported(db, defs[..n], dry);
      NoneNewTwiceSoFar(db, defs);
      ReportsLength(db, defs[..n], dry);
      ReportsLength(db, defs[..n], opts);
      SameAppended(Reports(db, defs[..n], dry), Reports(db, defs[..n], opts),
                   ReportOn(db, defs[n], dry), ReportOn(Imported(db, defs[..n], opts), defs[n], opts));
    }
  }

  lemma SameAppended<T>(a: seq<T>, b: seq<T>, x: T, y: T)
    requires |a| == |b|
    ensures a + [x] == b + [y] <==> a == b && x == y
  {
    if a + [x] == b + [y] {
      assert (a + [x])[..|a|] == a && (b + [y])[..|b|] == b;
      assert (a + [x])[|a|] == x && (b + [y])[|b|] == y;
    }
  }

  // The same of a whole run: it reports alike exactly if a definition is refused, which ends either run
  // with no report, or no new slug is defined twice.
  lemma DryRunExactly(db: Db, defs: seq<Definition>, known: set<string>, opts: Options)
    requires Sound(db) && !opts.dryRun
    ensures var dry := opts.(dryRun := true);
      && Import(db, defs, known, dry).0 == db
      && (Import(db, defs, known, dry).1 == Import(db, defs, known, opts).1
          <==> |Accepted(defs, known)| < |defs| || NoneNewTwice(db, defs))
  {
    AcceptedAll(defs, known);
    DryRunReports(db, Accepted(defs, known), opts);
    DryRunChangesNothing(db, defs, known, opts.(dryRun := true));
  }

  lemma {:induction false} ReportsLength(db: Db, defs: seq<Definition>, opts: Options)
    ensures |Reports(db, defs, opts)| == |defs|
    decreases |defs|
  {
    if defs != [] {
      ReportsLength(db, defs[..|defs| - 1], opts);
    }
  }

  lemma SameReport(db: Db, defs: seq<Definition>, opts: Options)
    requires Sound(db) && !opts.dryRun && defs != []
    ensures var n := |defs| - 1;
      ReportOn(Imported(db, defs[..n], opts), defs[n], opts) == ReportOn(db, defs[n], opts.(dryRun := true))
      <==> defs[n].slug in Slugs(defs[..n]) ==> defs[n].slug in db.problems
  {
    var n := |defs| - 1;
    var d := Imported(db, defs[..n], opts);
    AllCatalogue(db, defs[..n], opts);
    KeptOnce(Catalogue(db), defs[..n], opts, defs[n].slug);
    assert Effective(d, defs[n].slug, opts) == Kept(Catalogue(d), defs[n].slug, opts);
    assert Effective(db, defs[n].slug, opts) == Kept(Catalogue(db), defs[n].slug, opts);
    assert defs[n].slug in d.problems <==> defs[n].slug in Catalogue(d);
  }

  lemma NoneNewTwiceSoFar(db: Db, defs: seq<Definition>)
    requires defs != []
    ensures var n := |defs| - 1;
      NoneNewTwice(db, defs) <==>
        NoneNewTwice(db, defs[..n]) && (defs[n].slug in Slugs(defs[..n]) ==> defs[n].slug in db.problems)
  {
    var n := |defs| - 1;
    if defs[n].slug in Slugs(defs[..n]) {
      var d :| d in defs[..n] && d.slug == defs[n].slug;
      var i :| 0 <= i < n && defs[i] == d;
    }
    forall i | 0 <= i < n
      ensures defs[i].slug in Slugs(defs[..n])
    {
      assert defs[..n][i] in defs[..n];
    }
  }

  // ---------------------------------------------------------------- refusals and reports

  lemma BlankTrims(s: string)
    ensures AllBlank(s) <==> Text.Trim(s) == ""
  {
    Text.TrimmedParts(s);
    assert Text.Trim(s) == "" ==> s == Text.Front(s) + Text.Behind(s);
  }

  // A definition that may be imported: a known signature, and its origin named in full, with an
  // attribution unless the licence is CC0.
  predicate Complete(def: Definition, known: set<string>) {
    var p := def.provenance;
    && def.signatureId in known
    && Text.Trim(p.source) != "" && Text.Trim(p.sourceUrl) != "" && Text.Trim(p.sourceLicense) != ""
    && Text.Trim(p.sourceRef) != ""
    && (p.sourceLicense == "CC0-1.0" || Text.Trim(p.attributionText) != "")
  }

  lemma AcceptableIffComplete(def: Definition, known: set<string>)
    ensures Acceptable(def, known) <==> Complete(def, known)
  {
    var p := def.provenance;
    BlankTrims(p.source);
    BlankTrims(p.sourceUrl);
    BlankTrims(p.sourceLicense);
    BlankTrims(p.sourceRef);
    BlankTrims(p.attributionText);
  }

  // The first `k` definitions pass, and the next, if there is one, does not.
  ghost predicate PassUpTo(defs: seq<Definition>, pass: Definition -> bool, k: nat) {
    k <= |defs| && (forall i :: 0 <= i < k ==> pass(defs[i])) && (k < |defs| ==> !pass(defs[k]))
  }

  lemma PassCons(defs: seq<Definition>, pass: Definition -> bool, k: nat)
    requires defs != [] && pass(defs[0]) && PassUpTo(defs[1..], pass, k)
    ensures PassUpTo(defs, pass, k + 1)
    ensures [defs[0]] + defs[1..][..k] == defs[..k + 1]
  {
    forall i | 0 < i < k + 1
      ensures pass(defs[i])
    {
      assert defs[1..][i - 1] == defs[i];
    }
  }

  lemma {:induction false} AcceptedPrefix(defs: seq<Definition>, known: set<string>, pass: Definition -> bool)
    requires forall d :: pass(d) <==> Acceptable(d, known)
    ensures var k := |Accepted(defs, known)|; PassUpTo(defs, pass, k) && Accepted(defs, known) == defs[..k]
  {
    if defs != [] && pass(defs[0]) {
      AcceptedPrefix(defs[1..], known, pass);
      PassCons(defs, pass, |Accepted(defs[1..], known)|);
    }
  }

  // An import reports exactly if every definition is complete; otherwise it ends at the first that is
  // not, with what came before imported.
  lemma RefusedExactly(db: Db, defs: seq<Definition>, known: set<string>, opts: Options) returns (k: nat)
    ensures PassUpTo(defs, (def: Definition) => Complete(def, known), k)
    ensures var r := Import(db, defs, known, opts);
      && (r.1.Some? <==> k == |defs|)
      && (r.1.None? ==> r.0 == Imported(db, defs[..k], opts))
  {
    var pass := (def: Definition) => Complete(def, known);
    forall d
      ensures pass(d) <==> Acceptable(d, known)
    {
      AcceptableIffComplete(d, known);
    }
    k := |Accepted(defs, known)|;
    AcceptedPrefix(defs, known, pass);
  }

  // What one definition is reported as: created exactly if its slug is new, active exactly if the row it
  // leaves is, and blocked by what that row and the definition lack. The row's runtimes are what this run
  // measured of the slug if it measured any, and otherwise what was stored.
  lemma ReportExactly(db: Db, def: Definition, opts: Options)
    requires !opts.dryRun
    ensures var r, p := ReportOn(db, def, opts), ImportedOne(db, def, opts).problems;
      && r.slug == def.slug && def.slug in p && p[def.slug].from == def
      && (r.created <==> def.slug !in db.problems)
      && (r.active <==> p[def.slug].active) && (r.active <==> r.gaps == [])
      && (NoTests in r.gaps <==> def.tests == []) && (NoSignature in r.gaps <==> def.signatureId == "")
      && ((exists g :: g in r.gaps && Unmeasured(g)) <==> !FullyMeasured(Some(p[def.slug].runtimes)))
      && ((exists g :: g in r.gaps && Unsolved(g)) <==> !FullySolved(def))
    ensures var m, p := opts.measured, ImportedOne(db, def, opts).problems;
      && (def.slug in m && m[def.slug] != map[] ==> p[def.slug].runtimes == m[def.slug])
      && ((def.slug !in m || m[def.slug] == map[]) && def.slug in db.problems ==>
            p[def.slug].runtimes == db.problems[def.slug].runtimes)
      && ((def.slug !in m || m[def.slug] == map[]) && def.slug !in db.problems ==> p[def.slug].runtimes == map[])
  {
    var runtimes := Effective(db, def.slug, opts);
    OneReplaced(db, def, opts);
    GapsExactly(def, runtimes);
  }

  predicate Unmeasured(g: Gap) {
    g.NoRuntimes? || g.RuntimesMissing?
  }

  predicate Unsolved(g: Gap) {
    g.NoSolutions? || g.SolutionsMissing?
  }

  lemma GapsExactly(def: Definition, runtimes: Runtimes)
    ensures var gaps := BlockingGaps(def, Some(runtimes));
      && (NoTests in gaps <==> def.tests == []) && (NoSignature in gaps <==> def.signatureId == "")
      && ((exists g :: g in gaps && Unmeasured(g)) <==> !FullyMeasured(Some(runtimes)))
      && ((exists g :: g in gaps && Unsolved(g)) <==> !FullySolved(def))
  {
    GapKinds(def, runtimes);
    GapsJoined(ShapeGap(def), RuntimeGap(runtimes), SolutionGap(def));
    KindsShow(ShapeGap(def), RuntimeGap(runtimes), SolutionGap(def));
    GapsAre(def, runtimes);
    NoRuntimeGap(runtimes);
    NoSolutionGap(def);
  }

  lemma NoRuntimeGap(runtimes: Runtimes)
    ensures RuntimeGap(runtimes) == [] <==> FullyMeasured(Some(runtimes))
  {
    RuntimeGaps(runtimes);
  }

  lemma NoSolutionGap(def: Definition)
    ensures SolutionGap(def) == [] <==> FullySolved(def)
  {
    SolutionGaps(def);
  }

  // Gaps of one kind are there exactly if their part is.
  lemma PartShows(gaps: seq<Gap>, part: seq<Gap>, kind: Gap -> bool)
    requires forall g :: g in part ==> g in gaps && kind(g)
    requires forall g :: g in gaps && kind(g) ==> g in part
    ensures (exists g :: g in gaps && kind(g)) <==> part != []
  {
    if part != [] {
      assert part[0] in part;
    }
  }

  lemma GapsAre(def: Definition, runtimes: Runtimes)
    ensures BlockingGaps(def, Some(runtimes)) == ShapeGap(def) + RuntimeGap(runtimes) + SolutionGap(def)
  {
  }

  lemma KindsShow(a: seq<Gap>, b: seq<Gap>, c: seq<Gap>)
    requires forall g :: g in a ==> !Unmeasured(g) && !Unsolved(g)
    requires (forall g :: g in b ==> Unmeasured(g)) && forall g :: g in c ==> Unsolved(g)
    ensures (exists g :: g in a + b + c && Unmeasured(g)) <==> b != []
    ensures (exists g :: g in a + b + c && Unsolved(g)) <==> c != []
  {
    GapsJoined(a, b, c);
    PartShows(a + b + c, b, g => Unmeasured(g));
    PartShows(a + b + c, c, g => Unsolved(g));
  }

  lemma GapsJoined(a: seq<Gap>, b: seq<Gap>, c: seq<Gap>)
    ensures forall g :: g in a + b + c <==> g in a || g in b || g in c
  {
  }

  lemma GapKinds(def: Definition, runtimes: Runtimes)
    ensures forall g :: g in RuntimeGap(runtimes) ==> Unmeasured(g)
    ensures forall g :: g in SolutionGap(def) ==> Unsolved(g)
    ensures forall g :: g in ShapeGap(def) ==>
        (g == NoTests && def.tests == []) || (g == NoSignature && def.signatureId == "")
    ensures def.tests == [] ==> NoTests in ShapeGap(def)
    ensures def.signatureId == "" ==> NoSignature in ShapeGap(def)
  {
  }

  // A complete run reports its definitions in order, each against what the ones before it left.
  lemma ReportsInOrder(db: Db, defs: seq<Definition>, opts: Options, i: nat)
    requires i < |defs|
    ensures |Reports(db, defs, opts)| == |defs|
    ensures Reports(db, defs, opts)[i] == ReportOn(Imported(db, defs[..i], opts), defs[i], opts)
  {
    var rs := (j: nat) => if j <= |defs| then Reports(db, defs[..j], opts) else [];
    var x := (j: nat) => if j < |defs| then ReportOn(Imported(db, defs[..j], opts), defs[j], opts)
                         else Report("", false, false, []);
    forall j: nat | j < |defs|
      ensures rs(j + 1) == rs(j) + [x(j)]
    {
      OneFurther(db, defs, j, opts);
    }
    Collected(rs, x, i, |defs|);
    assert defs[..|defs|] == defs;
  }

  // A list that grows by one entry a turn holds entry `i` at place `i`.
  lemma {:induction false} Collected(rs: nat -> seq<Report>, x: nat -> Report, i: nat, k: nat)
    requires rs(0) == [] && i < k && forall j: nat :: j < k ==> rs(j + 1) == rs(j) + [x(j)]
    ensures |rs(k)| == k && rs(k)[i] == x(i)
    decreases k
  {
    assert rs(k - 1 + 1) == rs(k - 1) + [x(k - 1)];
    if i < k - 1 {
      Collected(rs, x, i, k - 1);
    } else if k > 1 {
      Collected(rs, x, 0, k - 1);
    }
  }

  // ---------------------------------------------------------------- the tables in the database

  lemma AcceptedFurther(defs: seq<Definition>, known: set<string>, i: nat)
    requires i < |defs|
    ensures Acceptable(defs[i], known) ==>
      defs[..i] + Accepted(defs[i..], known) == defs[..i + 1] + Accepted(defs[i + 1..], known)
    ensures !Acceptable(defs[i], known) ==> defs[..i] + Accepted(defs[i..], known) == defs[..i]
  {
    assert defs[i..][0] == defs[i] && defs[i..][1..] == defs[i + 1..];
    assert defs[..i] + ([defs[i]] + Accepted(defs[i + 1..], known)) == defs[..i + 1] + Accepted(defs[i + 1..], known);
  }

  lemma OneFurther(db: Db, defs: seq<Definition>, i: nat, opts: Options)
    requires i < |defs|
    ensures Imported(db, defs[..i + 1], opts) == ImportedOne(Imported(db, defs[..i], opts), defs[i], opts)
    ensures Reports(db, defs[..i + 1], opts)
      == Reports(db, defs[..i], opts) + [ReportOn(Imported(db, defs[..i], opts), defs[i], opts)]
  {
    assert defs[..i + 1][..i] == defs[..i];
  }

  lemma Refused(db: Db, defs: seq<Definition>, known: set<string>, opts: Options, i: nat)
    requires i < |defs| && Accepted(defs, known) == defs[..i]
    ensures Import(db, defs, known, opts) == (Imported(db, defs[..i], opts), None)
  {
    assert |Accepted(defs, known)| == i;
  }

  lemma Completed(db: Db, defs: seq<Definition>, known: set<string>, opts: Options)
    requires Accepted(defs, known) == defs
    ensures Import(db, defs, known, opts)
      == (Closed(Imported(db, defs, opts), true, defs, opts), Some(Reports(db, defs, opts)))
  {
  }

  class Tables {
    var problems: map<string, Problem>
    var cases: map<Key, Case>
    var next: nat

    constructor ()
      ensures State() == Db(map[], map[], 0)
    {
      problems, cases, next := map[], map[], 0;
    }

    function State(): Db
      reads this
    {
      Db(problems, cases, next)
    }

    method WriteProblem(def: Definition, runtimes: Runtimes, active: bool) returns (id: nat)
      modifies this
      ensures State() == UpsertProblem(old(State()), def, runtimes, active)
      ensures def.slug in problems && id == problems[def.slug].id
    {
      if def.slug in problems {
        id := problems[def.slug].id;
      } else {
        id := next;
        next := next + 1;
      }
      problems := problems[def.slug := Problem(id, def, runtimes, active)];
    }

    method WriteCase(problem: nat, ordinal: nat, test: Test)
      modifies this
      ensures State() == UpsertCase(old(State()), Key(problem, ordinal), test)
    {
      var k := Key(problem, ordinal);
      if k in cases {
        cases := cases[k := Case(cases[k].id, test)];
      } else {
        cases := cases[k := Case(next, test)];
        next := next + 1;
      }
    }

    // The transaction of one definition.
    method ImportOne(def: Definition, opts: Options) returns (report: Report)
      modifies this
      ensures State() == ImportedOne(old(State()), def, opts)
      ensures report == ReportOn(old(State()), def, opts)
    {
      var existing := def.slug in problems;
      var measured := Measured(opts, def.slug);
      var runtimes := if measured != map[] then measured else if existing then problems[def.slug].runtimes else map[];
      var gaps := BlockingGaps(def, Some(runtimes));
      var active := gaps == [];
      report := Report(def.slug, !existing, active, gaps);
      if opts.dryRun {
        return;
      }
      var id := WriteProblem(def, runtimes, active);
      WriteCases(id, def.tests);
    }

    method WriteCases(problem: nat, tests: seq<Test>)
      modifies this
      ensures State() == DeleteFrom(UpsertCases(old(State()), problem, tests), problem, |tests|)
    {
      ghost var start := State();
      for ordinal := 0 to |tests|
        invariant State() == UpsertCases(start, problem, tests[..ordinal])
      {
        WriteCase(problem, ordinal, tests[ordinal]);
        assert tests[..ordinal + 1][..ordinal] == tests[..ordinal];
      }
      assert tests[..|tests|] == tests;
      cases := map k | k in cases && !(k.problem == problem && k.ordinal >= |tests|) :: cases[k];
    }

    // None when a definition is refused, which ends the run where it stands.
    method ImportProblems(defs: seq<Definition>, known: set<string>, opts: Options)
      returns (reports: Option<seq<Report>>)
      modifies this
      ensures (State(), reports) == Import(old(State()), defs, known, opts)
    {
      ghost var start := State();
      var results := [];
      for i := 0 to |defs|
        invariant Accepted(defs, known) == defs[..i] + Accepted(defs[i..], known)
        invariant State() == Imported(start, defs[..i], opts)
        invariant results == Reports(start, defs[..i], opts)
      {
        AcceptedFurther(defs, known, i);
        if !Acceptable(defs[i], known) {
          Refused(start, defs, known, opts, i);
          return None;
        }
        var report := ImportOne(defs[i], opts);
        results := results + [report];
        OneFurther(start, defs, i, opts);
      }
      assert defs[..|defs|] == defs && defs[|defs|..] == [];
      Completed(start, defs, known, opts);
      if !opts.dryRun && defs != [] {
        DeactivateMissing(Slugs(defs));
      }
      reports := Some(results);
    }

    method DeactivateMissing(slugs: set<string>)
      modifies this
      ensures State() == Deactivated(old(State()), slugs)
    {
      problems := map s | s in problems ::
        if problems[s].active && s !in slugs then problems[s].(active := false) else problems[s];
    }
  }
}
