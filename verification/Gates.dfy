/** Declared gates, the values `nopal.gates` documents validate to. */
module Gates {
  import opened Wrappers

  datatype Stage = PerEdit | PreCommit | PrePr | PostPr | Continuous | HumanInterrupt | Unknown(text: string)

  datatype Run = Command(source: string) | Argv(words: seq<string>)

  datatype Gate = Gate(
    id: string,
    stage: Stage,
    run: Run,
    cwd: Option<string>,
    autofix: Option<string>,
    parallelSafe: Option<bool>,
    mutates: Option<bool>)

  datatype Selector = Selector(name: string, paths: seq<string>, exclude: seq<string>, gateSets: seq<string>)

  /** `scaffold` holds the generated gate ids of a generated document and is absent from an explicit one. */
  datatype GatesConfig = GatesConfig(
    scaffold: Option<seq<string>>,
    gates: seq<Gate>,
    gateSets: map<string, seq<string>>,
    selectors: seq<Selector>)
  {
    function Generated(): set<string> {
      if scaffold.None? then {} else set id | id in scaffold.value
    }
  }

  /** The first gate declared under an id. */
  function FindGate(gates: seq<Gate>, id: string): (r: Option<Gate>)
    ensures r.None? <==> forall g :: g in gates ==> g.id != id
    ensures r.Some? ==> r.value in gates && r.value.id == id
  {
    if gates == [] then None
    else if gates[0].id == id then Some(gates[0])
    else
      assert gates == [gates[0]] + gates[1..];
      FindGate(gates[1..], id)
  }

  ghost predicate UniqueIds(gates: seq<Gate>) {
    forall i, j :: 0 <= i < j < |gates| ==> gates[i].id != gates[j].id
  }

  /** The glob library: which patterns compile, and which pattern matches which file. */
  datatype Globs = Globs(compiles: string -> bool, hits: (string, string) -> bool) {
    predicate Compile(patterns: seq<string>) {
      forall p :: p in patterns ==> compiles(p)
    }

    predicate Any(patterns: seq<string>, file: string) {
      exists p :: p in patterns && hits(p, file)
    }

    /** A changed file is in a selector's scope. A broken exclude list excludes nothing. */
    predicate InScope(s: Selector, file: string) {
      && Compile(s.paths)
      && Any(s.paths, file)
      && !(s.exclude != [] && Compile(s.exclude) && Any(s.exclude, file))
    }
  }
}
