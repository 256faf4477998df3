/** The run ledger: evidence files, the history of every path ever written, and the event log.
    A directive is committed as one revision or not at all. */
module Ledger {
  import opened Wrappers
  import opened Evidence

  datatype Event = Event(kind: EventKind, payload: Document)

  datatype Journal = Journal(files: map<EvidencePath, Document>, history: set<EvidencePath>, events: seq<Event>)

  const EmptyJournal := Journal(map[], {}, [])

  // ---- Specification -----------------------------------------------------------------

  /** Every effect is admitted against the journal as it stood before the batch. */
  predicate Admitted(j: Journal, effects: seq<Effect>) {
    && (forall i :: 0 <= i < |effects| && effects[i].CreateJson? ==>
          effects[i].path !in j.files && effects[i].path !in j.history)
    && (forall i, k :: 0 <= i < k < |effects| && effects[i].CreateJson? && effects[k].CreateJson? ==>
          effects[i].path != effects[k].path)
    && (forall i :: 0 <= i < |effects| && effects[i].RemoveFile? && !effects[i].ignoreMissing ==>
        effects[i].path in j.files)
  }

  /** One admitted effect; a removal acts only on a path present before the batch. */
  function ApplyOne(before: Journal, j: Journal, effect: Effect): Journal {
    match effect
    case AppendEvent(kind, payload) => j.(events := j.events + [Event(kind, payload)])
    case WriteJson(path, document) => j.(files := j.files[path := document], history := j.history + {path})
    case CreateJson(path, document) => j.(files := j.files[path := document], history := j.history + {path})
    case RemoveFile(path, _) =>
      if path in before.files then j.(files := j.files - {path}, history := j.history + {path}) else j
  }

  function ApplyAll(before: Journal, effects: seq<Effect>): Journal {
    if effects == [] then before
    else ApplyOne(before, ApplyAll(before, effects[..|effects| - 1]), effects[|effects| - 1])
  }

  function Commit(j: Journal, effects: seq<Effect>): Option<Journal> {
    if Admitted(j, effects) then Some(ApplyAll(j, effects)) else None
  }

  // ---- The store -------------------------------------------------------------------------

  class RunLedger {
    var files: map<EvidencePath, Document>
    var history: set<EvidencePath>
    var events: seq<Event>

    function Contents(): Journal reads this { Journal(files, history, events) }

    constructor ()
      ensures Contents() == EmptyJournal
    {
      files, history, events := map[], {}, [];
    }

    /** Check the whole batch, then publish it as one revision. */
    method CommitEffectBatch(effects: seq<Effect>) returns (ok: bool)
      modifies this
      ensures ok == Commit(old(Contents()), effects).Some?
      ensures Contents() == if ok then Commit(old(Contents()), effects).value else old(Contents())
    {
      ok := AdmitBatch(effects);
      if !ok { return; }
      var filesBefore := files;
      for i := 0 to |effects|
        invariant Contents() == ApplyAll(old(Contents()), effects[..i])
      {
        assert effects[..i + 1][..i] == effects[..i];
        match effects[i] {
          case AppendEvent(kind, payload) =>
            events := events + [Event(kind, payload)];
          case WriteJson(path, document) =>
            files, history := files[path := document], history + {path};
          case CreateJson(path, document) =>
            files, history := files[path := document], history + {path};
          case RemoveFile(path, _) =>
            if path in filesBefore { files, history := files - {path}, history + {path}; }
        }
      }
      assert effects[..|effects|] == effects;
    }

    method AdmitBatch(effects: seq<Effect>) returns (ok: bool)
      ensures ok == Admitted(Contents(), effects)
    {
      var created: set<EvidencePath> := {};
      for i := 0 to |effects|
        invariant Admitted(Contents(), effects[..i])
        invariant created == set k | 0 <= k < i && effects[k].CreateJson? :: effects[k].path
      {
        match effects[i] {
          case CreateJson(path, _) =>
            if path in files || path in history || path in created {
              return false;
            }
            created := created + {path};
          case RemoveFile(path, ignoreMissing) =>
            if path !in files && !ignoreMissing { return false; }
          case _ =>
        }
      }
      assert effects[..|effects|] == effects;
      ok := true;
    }
  }

  // ---- Commit laws ------------------------------------------------------------------------

  predicate Touches(effects: seq<Effect>, path: EvidencePath) {
    exists i :: 0 <= i < |effects| && !effects[i].AppendEvent? && effects[i].path == path
  }

  /** A batch leaves alone every path it does not name, and history only grows. */
  lemma {:induction false} CommitFrame(j: Journal, effects: seq<Effect>, path: EvidencePath)
    ensures var after := ApplyAll(j, effects);
      && j.history <= after.history
      && (!Touches(effects, path) ==>
            (path in after.files <==> path in j.files) && (path in j.files ==> after.files[path] == j.files[path])
            && (path in after.history <==> path in j.history))
  {
    if effects != [] {
      var n := |effects| - 1;
      CommitFrame(j, effects[..n], path);
      if Touches(effects[..n], path) {
        var i :| 0 <= i < n && !effects[..n][i].AppendEvent? && effects[..n][i].path == path;
        assert effects[i].path == path;
      }
    }
  }
}
