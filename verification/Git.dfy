/** Commits and the chain of merges an integration branch is made of.  A commit id
    stands for everything it names, so commits are trees of commits; an id that names
    nothing in the repository is a commit outside it. */
module Git {
  import opened Basics

  /** `note`: the message and the times. */
  datatype Commit = Commit(parents: seq<Commit>, tree: nat, note: nat)

  /** The tree of a clean merge, or a conflict. */
  type AutoMerge = (Commit, Commit) -> Option<nat>

  datatype Entry = Entry(number: nat, head: Commit, commit: Commit)

  /** `git merge-base --is-ancestor`. */
  predicate Ancestor(a: Commit, b: Commit)
    decreases b
  {
    a == b || exists i :: 0 <= i < |b.parents| && Ancestor(a, b.parents[i])
  }

  lemma {:induction false} AncestorTransitive(a: Commit, b: Commit, c: Commit)
    requires Ancestor(a, b) && Ancestor(b, c)
    ensures Ancestor(a, c)
    decreases c
  {
    if b != c {
      var i :| 0 <= i < |c.parents| && Ancestor(b, c.parents[i]);
      AncestorTransitive(a, b, c.parents[i]);
    }
  }

  // ------------------------------------------------------------ the integration chain

  /** One entry on top of `previous`: nothing new for a head already contained, a merge
      of exactly these two commits otherwise. */
  predicate Step(previous: Commit, e: Entry) {
    if e.commit == previous then Ancestor(e.head, previous) else e.commit.parents == [previous, e.head]
  }

  function Last(base: Commit, entries: seq<Entry>): Commit {
    if |entries| == 0 then base else entries[|entries| - 1].commit
  }

  predicate Chain(base: Commit, entries: seq<Entry>) {
    forall i | 0 <= i < |entries| :: Step(Last(base, entries[..i]), entries[i])
  }

  lemma ChainPrefix(base: Commit, entries: seq<Entry>, n: nat)
    requires n <= |entries| && Chain(base, entries)
    ensures Chain(base, entries[..n])
  {
    forall i | 0 <= i < n ensures Step(Last(base, entries[..n][..i]), entries[..n][i]) {
      assert entries[..n][..i] == entries[..i];
    }
  }

  lemma ChainAppend(base: Commit, entries: seq<Entry>, e: Entry)
    requires Chain(base, entries) && Step(Last(base, entries), e)
    ensures Chain(base, entries + [e]) && Last(base, entries + [e]) == e.commit
  {
    forall i | 0 <= i <= |entries| ensures Step(Last(base, (entries + [e])[..i]), (entries + [e])[i]) {
      assert (entries + [e])[..i] == entries[..i];
      assert entries[..|entries|] == entries;
    }
  }

  /** The entries that made a commit of their own. */
  function Merges(base: Commit, entries: seq<Entry>): seq<Entry> {
    if |entries| == 0 then []
    else
      var n := |entries| - 1;
      Merges(base, entries[..n]) + (if entries[n].commit == Last(base, entries[..n]) then [] else [entries[n]])
  }

  /** Following first parents from `c`, one meets the merges of exactly these entries,
      last to first, and then `base`. */
  predicate FirstParents(c: Commit, base: Commit, merges: seq<Entry>)
    decreases |merges|
  {
    if |merges| == 0 then c == base
    else
      var e := merges[|merges| - 1];
      c == e.commit && |c.parents| == 2 && c.parents[1] == e.head && FirstParents(c.parents[0], base, merges[..|merges| - 1])
  }

  lemma {:induction false} ChainIsFirstParents(base: Commit, entries: seq<Entry>)
    requires Chain(base, entries)
    ensures FirstParents(Last(base, entries), base, Merges(base, entries))
  {
    if |entries| > 0 {
      var n := |entries| - 1;
      var e, rest := entries[n], Merges(base, entries[..n]);
      ChainPrefix(base, entries, n);
      ChainIsFirstParents(base, entries[..n]);
      assert rest + [] == rest;
      assert (rest + [e])[..|rest|] == rest;
    }
  }

  lemma StepContents(previous: Commit, e: Entry, c: Commit)
    requires Step(previous, e)
    ensures Ancestor(c, e.commit) <==> Ancestor(c, previous) || Ancestor(c, e.head) || c == e.commit
  {
    if e.commit == previous {
      if Ancestor(c, e.head) { AncestorTransitive(c, e.head, previous); }
    } else {
      assert e.commit.parents[0] == previous && e.commit.parents[1] == e.head;
      if Ancestor(c, e.commit) && c != e.commit {
        var i :| 0 <= i < 2 && Ancestor(c, e.commit.parents[i]);
      }
    }
  }

  lemma EarlierEntries(base: Commit, entries: seq<Entry>, c: Commit)
    requires |entries| > 0
    ensures var n := |entries| - 1;
            && ((exists i :: 0 <= i < |entries| && Ancestor(c, entries[i].head)) <==>
                (exists i :: 0 <= i < n && Ancestor(c, entries[..n][i].head)) || Ancestor(c, entries[n].head))
            && ((exists i :: 0 <= i < |entries| && c == entries[i].commit) <==>
                (exists i :: 0 <= i < n && c == entries[..n][i].commit) || c == entries[n].commit)
  {
    var n := |entries| - 1;
    forall i | 0 <= i < n ensures entries[..n][i] == entries[i] { }
  }

  /** A chain contains the history of the base and of every head, its own merges, and
      nothing else. */
  lemma {:induction false} ChainContents(base: Commit, entries: seq<Entry>, c: Commit)
    requires Chain(base, entries)
    ensures Ancestor(c, Last(base, entries)) <==>
              || Ancestor(c, base)
              || (exists i :: 0 <= i < |entries| && Ancestor(c, entries[i].head))
              || (exists i :: 0 <= i < |entries| && c == entries[i].commit)
  {
    if |entries| > 0 {
      var n := |entries| - 1;
      ChainPrefix(base, entries, n);
      ChainContents(base, entries[..n], c);
      StepContents(Last(base, entries[..n]), entries[n], c);
      EarlierEntries(base, entries, c);
    }
  }

  // --------------------------------------------------------------- the full rebuild

  /** The merge of `head` into `previous`: none for a head already contained. */
  function Merge(auto: AutoMerge, previous: Commit, head: Commit, note: nat): Option<Commit> {
    if Ancestor(head, previous) then Some(previous)
    else
      var tree := auto(previous, head);
      if tree.None? then None else Some(Commit([previous, head], tree.value, note))
  }

  /** Merging every head in turn, from the base, reusing nothing. */
  function Rebuild(auto: AutoMerge, base: Commit, heads: seq<Commit>, notes: seq<nat>): Option<Commit>
    requires |notes| == |heads|
  {
    if |heads| == 0 then Some(base)
    else
      var n := |heads| - 1;
      var previous := Rebuild(auto, base, heads[..n], notes[..n]);
      if previous.None? then None else Merge(auto, previous.value, heads[n], notes[n])
  }

  function Heads(entries: seq<Entry>): seq<Commit> {
    seq(|entries|, i requires 0 <= i < |entries| => entries[i].head)
  }

  function Notes(entries: seq<Entry>): seq<nat> {
    seq(|entries|, i requires 0 <= i < |entries| => entries[i].commit.note)
  }

  /** Every entry is what merging its head at that point gives. */
  predicate Genuine(auto: AutoMerge, base: Commit, entries: seq<Entry>) {
    forall i | 0 <= i < |entries| ::
      Merge(auto, Last(base, entries[..i]), entries[i].head, entries[i].commit.note) == Some(entries[i].commit)
  }

  lemma GenuinePrefix(auto: AutoMerge, base: Commit, entries: seq<Entry>, n: nat)
    requires n <= |entries| && Genuine(auto, base, entries)
    ensures Genuine(auto, base, entries[..n])
  {
    forall i | 0 <= i < n
      ensures Merge(auto, Last(base, entries[..n][..i]), entries[..n][i].head, entries[..n][i].commit.note) == Some(entries[..n][i].commit)
    {
      assert entries[..n][..i] == entries[..i];
    }
  }

  /** A genuine chain, however many of its entries were reused, is the full rebuild of
      its heads. */
  lemma {:induction false} GenuineIsRebuild(auto: AutoMerge, base: Commit, entries: seq<Entry>)
    requires Genuine(auto, base, entries)
    ensures Rebuild(auto, base, Heads(entries), Notes(entries)) == Some(Last(base, entries))
  {
    if |entries| > 0 {
      var n := |entries| - 1;
      GenuinePrefix(auto, base, entries, n);
      GenuineIsRebuild(auto, base, entries[..n]);
      assert Heads(entries)[..n] == Heads(entries[..n]);
      assert Notes(entries)[..n] == Notes(entries[..n]);
    }
  }

  lemma GenuineAppend(auto: AutoMerge, base: Commit, entries: seq<Entry>, e: Entry)
    requires Genuine(auto, base, entries)
    requires Merge(auto, Last(base, entries), e.head, e.commit.note) == Some(e.commit)
    ensures Genuine(auto, base, entries + [e])
  {
    forall i | 0 <= i <= |entries|
      ensures Merge(auto, Last(base, (entries + [e])[..i]), (entries + [e])[i].head, (entries + [e])[i].commit.note) == Some((entries + [e])[i].commit)
    {
      assert (entries + [e])[..i] == entries[..i];
      assert entries[..|entries|] == entries;
    }
  }

  /** A merge is a step: the new commit cannot be its own parent. */
  lemma MergeIsStep(auto: AutoMerge, previous: Commit, e: Entry, note: nat)
    requires Merge(auto, previous, e.head, note) == Some(e.commit)
    ensures Step(previous, e)
  {
    if !Ancestor(e.head, previous) {
      assert e.commit.parents[0] == previous;
    }
  }
}
