/**
 * The file loader (fileloader.js): a queue of files under one directory,
 * each fetched asynchronously; once every fetch has completed, the callback
 * receives a table from file name to the file's text. A fetch that completes
 * with a status other than 200 still counts as complete but contributes no
 * text. The requests themselves are not modelled: the completions arrive as
 * a sequence of events, in the order the browser delivers them.
 */
module FileLoading {
  import opened Wrappers

  /** One queued file: its name and the URL it is fetched from. */
  datatype FileEntry = FileEntry(name: string, url: string)

  /** The completion of the fetch of the queue entry at `index`, with its HTTP status and response text. */
  datatype Completion = Completion(index: nat, status: int, text: string)

  /** The HTTP status of a successful fetch. */
  const OK := 200

  /** The text a completion leaves in its entry: the response only when the status is 200. */
  function Outcome(c: Completion): (t: Option<string>)
    ensures t.Some? <==> c.status == OK
    ensures t.Some? ==> t.value == c.text
  {
    if c.status == OK then Some(c.text) else None
  }

  /** Every completion names an entry of a queue of `n` files, and no fetch completes twice. */
  predicate WellFormed(cs: seq<Completion>, n: nat)
  {
    && (forall i :: 0 <= i < |cs| ==> cs[i].index < n)
    && (forall i, j :: 0 <= i < j < |cs| ==> cs[i].index != cs[j].index)
  }

  /** The result table after the completions `cs`, in order: each stores its entry's text under the entry's name. */
  function Collected(entries: seq<FileEntry>, cs: seq<Completion>): map<string, Option<string>>
    requires forall i :: 0 <= i < |cs| ==> cs[i].index < |entries|
  {
    if cs == [] then map[]
    else
      var c := cs[|cs| - 1];
      Collected(entries, cs[..|cs| - 1])[entries[c.index].name := Outcome(c)]
  }

  /** The table holds exactly the names of the entries whose fetch has completed. */
  lemma {:induction false} CollectedKeys(entries: seq<FileEntry>, cs: seq<Completion>)
    requires forall i :: 0 <= i < |cs| ==> cs[i].index < |entries|
    ensures Collected(entries, cs).Keys == set i | 0 <= i < |cs| :: entries[cs[i].index].name
  {
    if cs != [] {
      var cs' := cs[..|cs| - 1];
      CollectedKeys(entries, cs');
      assert forall i :: 0 <= i < |cs'| ==> cs'[i] == cs[i];
      assert (set i | 0 <= i < |cs| :: entries[cs[i].index].name)
          == (set i | 0 <= i < |cs'| :: entries[cs'[i].index].name) + {entries[cs[|cs| - 1].index].name};
    }
  }

  /**
   * The value stored under a name is the outcome of the last completion
   * for an entry of that name: a later completion overwrites an earlier one.
   */
  lemma {:induction false} CollectedLast(entries: seq<FileEntry>, cs: seq<Completion>, k: nat)
    requires forall i :: 0 <= i < |cs| ==> cs[i].index < |entries|
    requires k < |cs|
    requires forall j :: k < j < |cs| ==> entries[cs[j].index].name != entries[cs[k].index].name
    ensures entries[cs[k].index].name in Collected(entries, cs)
    ensures Collected(entries, cs)[entries[cs[k].index].name] == Outcome(cs[k])
  {
    if k < |cs| - 1 {
      var cs' := cs[..|cs| - 1];
      assert forall i :: 0 <= i < |cs'| ==> cs'[i] == cs[i];
      CollectedLast(entries, cs', k);
    }
  }

  /** The queue positions whose fetch has completed. */
  function Indices(cs: seq<Completion>): set<nat>
  {
    set i | 0 <= i < |cs| :: cs[i].index
  }

  /** The positions of a queue of `n` files. */
  function Below(n: nat): (s: set<nat>)
    ensures forall k: nat :: k in s <==> k < n
    ensures |s| == n
  {
    if n == 0 then {} else Below(n - 1) + {n - 1}
  }

  /** Completions of distinct fetches name as many entries as there are completions. */
  lemma {:induction false} IndicesCount(cs: seq<Completion>)
    requires forall i, j :: 0 <= i < j < |cs| ==> cs[i].index != cs[j].index
    ensures |Indices(cs)| == |cs|
  {
    if cs != [] {
      var cs' := cs[..|cs| - 1];
      assert forall i :: 0 <= i < |cs'| ==> cs'[i] == cs[i];
      IndicesCount(cs');
      assert Indices(cs) == Indices(cs') + {cs[|cs| - 1].index};
      assert cs[|cs| - 1].index !in Indices(cs');
    }
  }

  /**
   * At most `n` fetches of a queue of `n` files complete, and when all `n`
   * have, every entry has completed.
   */
  lemma Pigeonhole(cs: seq<Completion>, n: nat)
    requires WellFormed(cs, n)
    ensures |cs| <= n
    ensures |cs| == n ==> Indices(cs) == Below(n)
  {
    IndicesCount(cs);
    var rest := Below(n) - Indices(cs);
    assert Below(n) == Indices(cs) + rest;
    assert Indices(cs) * rest == {};
    if |cs| == n {
      assert |rest| == 0;
    }
  }

  /**
   * Once every fetch of the queue has completed, the table holds a text
   * (or, for a failed fetch, no text) under every queued name and under no
   * other name.
   */
  lemma AllCollected(entries: seq<FileEntry>, cs: seq<Completion>)
    requires WellFormed(cs, |entries|) && |cs| == |entries|
    ensures Collected(entries, cs).Keys == set i | 0 <= i < |entries| :: entries[i].name
  {
    Pigeonhole(cs, |entries|);
    CollectedKeys(entries, cs);
    forall i | 0 <= i < |entries|
      ensures entries[i].name in Collected(entries, cs)
    {
      assert i in Below(|entries|);
      var j :| 0 <= j < |cs| && cs[j].index == i;
    }
  }

  /**
   * The completion handler of `run`: each completion stores its entry's
   * outcome under the entry's name and counts the remaining fetches down;
   * the completion that brings the count to zero hands the table to the
   * callback. Returns the tables the callback received, in order.
   */
  method Complete(entries: seq<FileEntry>, cs: seq<Completion>) returns (calls: seq<map<string, Option<string>>>)
    requires WellFormed(cs, |entries|)
    ensures calls == if 0 < |cs| == |entries| then [Collected(entries, cs)] else []
  {
    Pigeonhole(cs, |entries|);
    var files: map<string, Option<string>> := map[];
    var remaining: int := |entries|;
    calls := [];
    var i := 0;
    while i < |cs|
      invariant 0 <= i <= |cs|
      invariant remaining == |entries| - i
      invariant files == Collected(entries, cs[..i])
      invariant calls == if 0 < i == |entries| then [files] else []
    {
      var c := cs[i];
      var file := entries[c.index];
      var text: Option<string> := None;
      if c.status == OK {
        text := Some(c.text);
      }
      assert cs[..i + 1][..i] == cs[..i];
      files := files[file.name := text];
      remaining := remaining - 1;
      if remaining == 0 {
        calls := calls + [files];
      }
      i := i + 1;
    }
    assert cs[..i] == cs;
  }

  class FileLoader {
    const path: string
    /** The files still to be fetched by the next `Run`. */
    var queue: seq<FileEntry>

    /** Queues every name, in order, with the URL `path + "/" + name`. */
    constructor (path: string, names: seq<string>)
      ensures this.path == path
      ensures |queue| == |names|
      ensures forall i :: 0 <= i < |names| ==> queue[i] == FileEntry(names[i], path + "/" + names[i])
    {
      this.path := path;
      queue := [];
      new;
      var i := 0;
      while i < |names|
        invariant 0 <= i <= |names|
        invariant |queue| == i
        invariant forall j :: 0 <= j < i ==> queue[j] == FileEntry(names[j], path + "/" + names[j])
      {
        var name := names[i];
        var url := path + "/" + name;
        queue := queue + [FileEntry(name, url)];
        i := i + 1;
      }
    }

    /**
     * Starts fetching every queued file and empties the queue; `cs` are the
     * completions the browser later delivers for those fetches. Returns the
     * tables handed to the callback.
     */
    method Run(cs: seq<Completion>) returns (calls: seq<map<string, Option<string>>>)
      requires WellFormed(cs, |queue|)
      modifies this
      ensures queue == []
      ensures calls == if 0 < |cs| == |old(queue)| then [Collected(old(queue), cs)] else []
    {
      var started := queue;
      calls := Complete(started, cs);
      queue := [];
    }
  }
}
