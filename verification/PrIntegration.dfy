/** The local integration branch: the selected pull requests merged on top of
    origin/main, with the merges of an earlier call reused where they still apply. */
module PrIntegration {
  import opened Basics
  import opened Git

  datatype PullRequest = PullRequest(number: nat, head: Commit)

  datatype State = State(base: Commit, entries: seq<Entry>)

  /** Unchanged: the branch already is what was asked for.  Refused: given up before
      the branch was touched.  Restored: failed, and the branch put back.  Stranded:
      failed, and putting it back failed too. */
  datatype Result = Unchanged | Integrated | Refused | Restored | Stranded | Killed

  predicate Successful(r: Result) {
    r.Unchanged? || r.Integrated?
  }

  // ------------------------------------------------------------------------ ordering

  function Insert(x: PullRequest, s: seq<PullRequest>): seq<PullRequest> {
    if |s| == 0 || x.number <= s[0].number then [x] + s else [s[0]] + Insert(x, s[1..])
  }

  /** By number; equal numbers keep their order. */
  function Sort(s: seq<PullRequest>): seq<PullRequest> {
    if |s| == 0 then [] else Insert(s[0], Sort(s[1..]))
  }

  predicate Ascending(s: seq<PullRequest>) {
    forall i, j | 0 <= i < j < |s| :: s[i].number <= s[j].number
  }

  lemma {:induction false} InsertAdds(x: PullRequest, s: seq<PullRequest>)
    ensures multiset(Insert(x, s)) == multiset(s) + multiset{x}
    ensures forall y | y in Insert(x, s) :: y == x || y in s
  {
    if |s| > 0 {
      assert s == [s[0]] + s[1..];
      if s[0].number < x.number { InsertAdds(x, s[1..]); }
    }
  }

  lemma {:induction false} InsertKeeps(x: PullRequest, s: seq<PullRequest>)
    requires Ascending(s)
    ensures Ascending(Insert(x, s))
  {
    if |s| > 0 && s[0].number < x.number {
      InsertKeeps(x, s[1..]);
      InsertAdds(x, s[1..]);
      var rest := Insert(x, s[1..]);
      forall i | 0 <= i < |rest| ensures s[0].number <= rest[i].number {
        assert rest[i] in rest;
      }
    }
  }

  lemma {:induction false} SortKeeps(s: seq<PullRequest>)
    ensures Ascending(Sort(s)) && multiset(Sort(s)) == multiset(s)
  {
    if |s| > 0 {
      SortKeeps(s[1..]);
      InsertKeeps(s[0], Sort(s[1..]));
      InsertAdds(s[0], Sort(s[1..]));
      assert s == [s[0]] + s[1..];
    }
  }

  /** The pull requests with one number, in their order. */
  function Numbered(s: seq<PullRequest>, n: nat): seq<PullRequest> {
    if |s| == 0 then [] else (if s[0].number == n then [s[0]] else []) + Numbered(s[1..], n)
  }

  lemma {:induction false} InsertIsStable(x: PullRequest, s: seq<PullRequest>, n: nat)
    ensures Numbered(Insert(x, s), n) == (if x.number == n then [x] else []) + Numbered(s, n)
  {
    var t := Insert(x, s);
    if |s| == 0 || x.number <= s[0].number {
      assert t[0] == x && t[1..] == s;
    } else {
      InsertIsStable(x, s[1..], n);
      assert t[0] == s[0] && t[1..] == Insert(x, s[1..]);
      assert Numbered(t, n) == (if s[0].number == n then [s[0]] else []) + Numbered(t[1..], n);
      hide Insert, Numbered;
    }
  }

  lemma {:induction false} SortIsStable(s: seq<PullRequest>, n: nat)
    ensures Numbered(Sort(s), n) == Numbered(s, n)
  {
    if |s| > 0 {
      SortIsStable(s[1..], n);
      InsertIsStable(s[0], Sort(s[1..]), n);
    }
  }

  // --------------------------------------------------------------- reusable merges

  predicate SameIdentity(e: Entry, pr: PullRequest) {
    e.number == pr.number && e.head == pr.head
  }

  /** The entries are those of exactly these pull requests, in this order. */
  predicate Matches(entries: seq<Entry>, desired: seq<PullRequest>) {
    |entries| == |desired| && forall i | 0 <= i < |entries| :: SameIdentity(entries[i], desired[i])
  }

  function HeadsOf(desired: seq<PullRequest>): seq<Commit> {
    seq(|desired|, i requires 0 <= i < |desired| => desired[i].head)
  }

  /** What a matching chain merges: the heads of the pull requests in their order. */
  lemma MatchedHeads(entries: seq<Entry>, desired: seq<PullRequest>)
    requires Matches(entries, desired)
    ensures Heads(entries) == HeadsOf(desired)
    ensures forall i | 0 <= i < |entries| :: entries[i].number == desired[i].number
  {
    forall i | 0 <= i < |entries| ensures SameIdentity(entries[i], desired[i]) { }
  }

  /** Both begin with the same `n`, and not with more. */
  predicate AgreeOn(current: seq<Entry>, desired: seq<PullRequest>, n: nat) {
    && n <= |current| && n <= |desired|
    && Matches(current[..n], desired[..n])
    && (n < |current| && n < |desired| ==> !SameIdentity(current[n], desired[n]))
  }

  method LongestCommonPrefix(current: seq<Entry>, desired: seq<PullRequest>) returns (n: nat)
    ensures AgreeOn(current, desired, n)
  {
    n := 0;
    while n < |current| && n < |desired|
      invariant n <= |current| && n <= |desired|
      invariant forall i | 0 <= i < n :: SameIdentity(current[i], desired[i])
    {
      if !SameIdentity(current[n], desired[n]) { break; }
      n := n + 1;
    }
  }

  /** The saved entries are the chain of merges from the base to the branch. */
  predicate Describes(state: State, base: Commit, head: Commit) {
    state.base == base && Chain(base, state.entries) && Last(base, state.entries) == head
  }

  /** Whether the saved entries describe the branch as it is. */
  method ValidCheckpoints(state: State, base: Commit, head: Commit) returns (valid: bool)
    ensures valid <==> Describes(state, base, head)
  {
    if state.base != base || Last(state.base, state.entries) != head { return false; }
    var previous := base;
    for i := 0 to |state.entries|
      invariant previous == Last(base, state.entries[..i])
      invariant forall k | 0 <= k < i :: Step(Last(base, state.entries[..k]), state.entries[k])
    {
      var entry := state.entries[i];
      if entry.commit == previous {
        if !Ancestor(entry.head, previous) { return false; }
      } else if entry.commit.parents != [previous, entry.head] {
        return false;
      }
      previous := entry.commit;
    }
    valid := true;
  }

  // -------------------------------------------------------------------- the worktree

  /** A recovery ref holds this commit. */
  predicate BackedUp(refs: map<nat, Commit>, c: Commit) {
    exists name :: name in refs && refs[name] == c
  }

  /** No recovery ref was moved or deleted. */
  predicate Kept(before: map<nat, Commit>, after: map<nat, Commit>) {
    forall name | name in before :: name in after && after[name] == before[name]
  }

  lemma JoinedMatches(entries: seq<Entry>, desired: seq<PullRequest>, n: nat)
    requires n <= |entries| && n <= |desired|
    requires Matches(entries[..n], desired[..n]) && Matches(entries[n..], desired[n..])
    ensures Matches(entries, desired)
  {
    forall i | 0 <= i < |entries| ensures SameIdentity(entries[i], desired[i]) {
      if i < n {
        assert entries[i] == entries[..n][i] && desired[i] == desired[..n][i];
      } else {
        assert entries[i] == entries[n..][i - n] && desired[i] == desired[n..][i - n];
      }
    }
  }

  lemma AgreeOnAll(current: seq<Entry>, desired: seq<PullRequest>, n: nat)
    requires AgreeOn(current, desired, n)
    ensures n == |current| == |desired| <==> Matches(current, desired)
  {
    if n == |current| == |desired| { assert current[..n] == current && desired[..n] == desired; }
  }

  lemma NoneMatch(entries: seq<Entry>, desired: seq<PullRequest>)
    requires |entries| == 0 && |desired| == 0
    ensures Matches(entries, desired)
  {
  }

  /** What a state file that describes the branch agrees on with the pull requests, and no
      more, is at the front of the new entries. */
  predicate Reuses(file: Option<State>, base: Commit, head: Commit, desired: seq<PullRequest>, entries: seq<Entry>, n: nat) {
    if file.Some? && Describes(file.value, base, head)
    then AgreeOn(file.value.entries, desired, n) && n <= |entries| && entries[..n] == file.value.entries[..n]
    else n == 0
  }

  lemma NoEntries(auto: AutoMerge, base: Commit)
    ensures Chain(base, []) && Genuine(auto, base, [])
  {
  }

  /** The entries at the front of a state file that describes the branch that the pull requests
      agree with; `done`: that is all of both. */
  method FindReusable(auto: AutoMerge, file: Option<State>, base: Commit, head: Commit, desired: seq<PullRequest>)
    returns (preserved: seq<Entry>, done: bool)
    ensures Reuses(file, base, head, desired, preserved, |preserved|)
    ensures |preserved| <= |desired| && Chain(base, preserved) && Matches(preserved, desired[..|preserved|])
    ensures (file.Some? ==> Genuine(auto, file.value.base, file.value.entries)) ==> Genuine(auto, base, preserved)
    ensures done <==> file.Some? && Describes(file.value, base, head) && Matches(file.value.entries, desired)
    ensures done ==> file.value.entries == preserved
  {
    hide Step, Chain, Genuine;
    preserved, done := [], false;
    assert Chain(base, []) && Genuine(auto, base, []) by { NoEntries(auto, base); }
    if file.None? { return; }
    var entries := file.value.entries;
    var current := ValidCheckpoints(file.value, base, head);
    if !current { return; }
    var n := LongestCommonPrefix(entries, desired);
    AgreeOnAll(entries, desired, n);
    preserved, done := entries[..n], n == |entries| == |desired|;
    ChainPrefix(base, entries, n);
    if Genuine(auto, base, entries) { GenuinePrefix(auto, base, entries, n); }
  }

  /** What a chain that matches the pull requests is. */
  lemma ChainIsIntegration(auto: AutoMerge, base: Commit, entries: seq<Entry>, desired: seq<PullRequest>)
    requires Chain(base, entries) && Matches(entries, desired)
    ensures FirstParents(Last(base, entries), base, Merges(base, entries))
    ensures |Notes(entries)| == |desired|
    ensures Genuine(auto, base, entries) ==> Rebuild(auto, base, HeadsOf(desired), Notes(entries)) == Some(Last(base, entries))
  {
    hide Chain, Genuine, Matches, FirstParents, Merges, Rebuild;
    ChainIsFirstParents(base, entries);
    MatchedHeads(entries, desired);
    if Genuine(auto, base, entries) { GenuineIsRebuild(auto, base, entries); }
  }

  /** Merging the next pull request into what these entries made is a conflict. */
  predicate ConflictsAfter(auto: AutoMerge, base: Commit, entries: seq<Entry>, desired: seq<PullRequest>) {
    && |entries| < |desired| && Chain(base, entries) && Matches(entries, desired[..|entries|])
    && var pr := desired[|entries|]; !Ancestor(pr.head, Last(base, entries)) && auto(Last(base, entries), pr.head).None?
  }

  /** Somewhere on the way to these pull requests there is a conflict. */
  ghost predicate Conflicting(auto: AutoMerge, base: Commit, desired: seq<PullRequest>) {
    exists entries :: ConflictsAfter(auto, base, entries, desired)
  }

  lemma NowDescribed(state: State, base: Commit, head: Commit)
    requires Describes(state, base, head)
    ensures state.base == base && Last(base, state.entries) == head
  {
  }

  lemma StillReuses(file: Option<State>, base: Commit, head: Commit, desired: seq<PullRequest>, preserved: seq<Entry>,
                    entries: seq<Entry>)
    requires Reuses(file, base, head, desired, preserved, |preserved|)
    requires |preserved| <= |entries| && entries[..|preserved|] == preserved
    ensures Reuses(file, base, head, desired, entries, |preserved|)
  {
  }

  class Workspace {
    const auto: AutoMerge
    const fate: nat -> Fate       // how every operation turns out
    const fetched: nat -> Commit  // what a fetch finds
    const notes: nat -> nat       // messages and times of merges
    const names: nat -> nat       // names of recovery refs
    var tick: nat
    var main: Commit
    var head: Commit
    /** None when the file is missing or cannot be read. */
    var file: Option<State>
    var refs: map<nat, Commit>

    constructor (auto: AutoMerge, fate: nat -> Fate, fetched: nat -> Commit, notes: nat -> nat, names: nat -> nat,
                 main: Commit, head: Commit, file: Option<State>, refs: map<nat, Commit>)
      ensures this.auto == auto && this.main == main && this.head == head && this.file == file && this.refs == refs
    {
      this.auto, this.fate, this.fetched, this.notes, this.names := auto, fate, fetched, notes, names;
      this.main, this.head, this.file, this.refs, this.tick := main, head, file, refs, 0;
    }

    /** How many operations have not succeeded so far. */
    ghost function Troubles(): nat
      reads `tick
    {
      Failures(fate, tick)
    }

    /** The state file, if any, was written by an earlier call. */
    predicate OwnFile()
      reads this
    {
      file.Some? ==> Genuine(auto, file.value.base, file.value.entries)
    }

    /** The branch is origin/main with exactly these pull requests merged, and the
        state file says so. */
    predicate Integrates(desired: seq<PullRequest>)
      reads this
    {
      && file.Some? && file.value.base == main
      && Matches(file.value.entries, desired)
      && Chain(main, file.value.entries)
      && head == Last(main, file.value.entries)
    }

    method Draw() returns (f: Fate)
      modifies `tick
      ensures f == fate(old(tick)) && tick == old(tick) + 1 && Troubles() == old(Troubles()) + Bad(f.outcome)
    {
      f := fate(tick);
      tick := tick + 1;
    }

    method Attempt() returns (o: Outcome)
      modifies `tick
      ensures o == fate(old(tick)).outcome && tick == old(tick) + 1 && Troubles() == old(Troubles()) + Bad(o)
    {
      var f := Draw();
      o := f.outcome;
    }

    /** Fetches origin and checks that the worktree is clean and idle. */
    method Ensure() returns (o: Outcome)
      modifies `main, `tick
      ensures o == fate(old(tick)).outcome && tick == old(tick) + 1 && Troubles() == old(Troubles()) + Bad(o)
      ensures main == if o.Done? || fate(old(tick)).effect then fetched(old(tick)) else old(main)
    {
      var f := Draw();
      o := f.outcome;
      if o.Done? || f.effect { main := fetched(tick - 1); }
    }

    method Reset(c: Commit) returns (o: Outcome)
      modifies `head, `tick
      ensures o == fate(old(tick)).outcome && tick == old(tick) + 1 && Troubles() == old(Troubles()) + Bad(o)
      ensures head == if o.Done? || fate(old(tick)).effect then c else old(head)
    {
      var f := Draw();
      o := f.outcome;
      if o.Done? || f.effect { head := c; }
    }

    /** `git merge --no-ff`; a conflict leaves the branch where it was. */
    method MergeIn(pr: PullRequest) returns (o: Outcome)
      modifies `head, `tick
      ensures tick == old(tick) + 1 && Troubles() == old(Troubles()) + Bad(fate(old(tick)).outcome)
      ensures o.Done? ==> Troubles() == old(Troubles()) && Merge(auto, old(head), pr.head, head.note) == Some(head)
      ensures o.Error? ==> head == old(head)
      ensures o.Crashed? <==> fate(old(tick)).outcome.Crashed?
      ensures o.Crashed? ==>
                var merged := Merge(auto, old(head), pr.head, notes(tick));
                head == if merged.Some? && fate(old(tick)).effect then merged.value else old(head)
      ensures old(Troubles()) == Troubles() ==>
                if Ancestor(pr.head, old(head)) || auto(old(head), pr.head).Some? then o.Done? else o.Error?
    {
      var f := Draw();
      o := f.outcome;
      var merged := Merge(auto, head, pr.head, notes(tick));
      if o.Done? && merged.None? { return Error; }
      if merged.Some? && (o.Done? || (o.Crashed? && f.effect)) {
        assert Merge(auto, head, pr.head, merged.value.note) == merged;
        head := merged.value;
      }
    }

    method SaveState(state: State) returns (o: Outcome)
      modifies `file, `tick
      ensures o == fate(old(tick)).outcome && tick == old(tick) + 1 && Troubles() == old(Troubles()) + Bad(o)
      ensures file == if o.Done? || (o.Crashed? && fate(old(tick)).effect) then Some(state) else old(file)
    {
      var f := Draw();
      o := f.outcome;
      if o.Done? || (o.Crashed? && f.effect) { file := Some(state); }
    }

    /** Creates a ref under a fresh name; a name in use is an error, never overwritten. */
    method BackUp() returns (o: Outcome)
      modifies `refs, `tick
      ensures tick == old(tick) + 1 && Troubles() == old(Troubles()) + Bad(fate(old(tick)).outcome)
      ensures var f, name := fate(old(tick)), names(old(tick));
              && o == (if name in old(refs) && f.outcome.Done? then Error else f.outcome)
              && refs == (if name !in old(refs) && (f.outcome.Done? || f.effect) then old(refs)[name := head] else old(refs))
      ensures Kept(old(refs), refs)
      ensures o.Done? ==> BackedUp(refs, head)
      ensures old(Troubles()) == Troubles() && (forall n :: names(n) !in old(refs)) ==> o.Done?
    {
      var name := names(tick);
      var f := Draw();
      o := f.outcome;
      if name in refs { return if o.Crashed? then Crashed else Error; }
      if o.Done? || f.effect {
        refs := refs[name := head];
        assert refs[name] == head;
      }
    }

    /** Merges the remaining pull requests one after the other; without a failing operation
        only a conflict stops it. */
    method Replay(base: Commit, preserved: seq<Entry>, remaining: seq<PullRequest>) returns (o: Outcome, entries: seq<Entry>)
      requires Chain(base, preserved) && head == Last(base, preserved)
      modifies `head, `tick
      ensures old(Troubles()) <= Troubles()
      ensures o.Done? ==> old(Troubles()) == Troubles() && tick == old(tick) + 2 * |remaining|
      ensures |preserved| <= |entries| <= |preserved| + |remaining| && entries[..|preserved|] == preserved
      ensures Chain(base, entries) && Matches(entries[|preserved|..], remaining[..|entries| - |preserved|])
      ensures o.Done? ==> |entries| == |preserved| + |remaining| && head == Last(base, entries)
      ensures Genuine(auto, base, preserved) ==> Genuine(auto, base, entries)
      ensures old(Troubles()) == Troubles() && !o.Done? ==>
                && o.Error? && |entries| < |preserved| + |remaining|
                && var pr := remaining[|entries| - |preserved|];
                   !Ancestor(pr.head, Last(base, entries)) && auto(Last(base, entries), pr.head).None?
    {
      hide Merge, Ancestor, Chain, Genuine, Step, Last, Failures;
      entries := preserved;
      for i := 0 to |remaining|
        invariant Chain(base, entries) && head == Last(base, entries)
        invariant |entries| == |preserved| + i && entries[..|preserved|] == preserved
        invariant forall k | 0 <= k < i :: SameIdentity(entries[|preserved| + k], remaining[k])
        invariant Genuine(auto, base, preserved) ==> Genuine(auto, base, entries)
        invariant Troubles() == old(Troubles()) && tick == old(tick) + 2 * i
      {
        var pr := remaining[i];
        o := Attempt();   // the pull request still has this head
        if !o.Done? { return; }
        o := MergeIn(pr);
        if !o.Done? { return; }
        var e := Entry(pr.number, pr.head, head);
        MergeIsStep(auto, Last(base, entries), e, head.note);
        ChainAppend(base, entries, e);
        if Genuine(auto, base, preserved) { GenuineAppend(auto, base, entries, e); }
        assert (entries + [e])[..|preserved|] == entries[..|preserved|];
        entries := entries + [e];
      }
      o := Done;
    }

    /** Puts the branch back after a failure. */
    method Restore(original: Commit, failed: Outcome) returns (r: Result)
      requires !failed.Done?
      modifies `head, `tick
      ensures old(Troubles()) <= Troubles()
      ensures r.Restored? ==> failed.Error? && head == original
      ensures r.Restored? || r.Stranded? || r.Killed?
      ensures failed.Error? ==> (old(Troubles()) == Troubles() <==> r.Restored?)
      ensures failed.Crashed? ==> r.Killed? && head == old(head)
    {
      if failed.Crashed? { return Killed; }
      var o := Reset(original);
      r := if o.Done? then Restored else if o.Error? then Stranded else Killed;
    }

    /** Rebuilds the branch from the reusable prefix; the original is backed up. */
    method Rebase(base: Commit, preserved: seq<Entry>, remaining: seq<PullRequest>) returns (r: Result, entries: seq<Entry>)
      requires Chain(base, preserved) && base == main
      modifies `head, `file, `tick
      ensures old(Troubles()) <= Troubles()
      ensures r.Integrated? ==> old(Troubles()) == Troubles() && tick == old(tick) + 2 + 2 * |remaining|
      ensures r.Stranded? ==> old(Troubles()) < Troubles()
      ensures r.Restored? ==> head == old(head) && file == old(file)
      ensures r.Integrated? || r.Restored? || r.Stranded? || r.Killed?
      ensures |preserved| <= |entries| <= |preserved| + |remaining| && entries[..|preserved|] == preserved
      ensures Chain(base, entries) && Matches(entries[|preserved|..], remaining[..|entries| - |preserved|])
      ensures r.Integrated? ==>
                && file == Some(State(main, entries)) && head == Last(main, entries)
                && |entries| == |preserved| + |remaining|
                && (Genuine(auto, base, preserved) ==> Genuine(auto, main, entries))
      ensures old(OwnFile()) && Genuine(auto, base, preserved) ==> OwnFile()
      ensures old(Troubles()) == Troubles() && !r.Integrated? ==>
                && r.Restored? && |entries| < |preserved| + |remaining|
                && var pr := remaining[|entries| - |preserved|];
                   !Ancestor(pr.head, Last(base, entries)) && auto(Last(base, entries), pr.head).None?
    {
      hide Chain, Genuine, Matches, Ancestor, Failures, Last;
      var original := head;
      entries := preserved;
      assert Matches(entries[|preserved|..], remaining[..0]) by { NoneMatch(entries[|preserved|..], remaining[..0]); }
      var o := Reset(Last(base, preserved));
      if !o.Done? { r := Restore(original, o); return; }
      o, entries := Replay(base, preserved, remaining);
      if !o.Done? { r := Restore(original, o); return; }
      o := SaveState(State(base, entries));
      if !o.Done? { r := Restore(original, o); return; }
      r := Integrated;
    }

    /** Backs the branch up and rebuilds it from the reusable prefix. */
    method Renew(base: Commit, preserved: seq<Entry>, desired: seq<PullRequest>) returns (r: Result)
      requires base == main && Chain(base, preserved) && |preserved| <= |desired| && Matches(preserved, desired[..|preserved|])
      modifies `head, `file, `refs, `tick
      ensures old(Troubles()) <= Troubles()
      ensures r.Integrated? ==> old(Troubles()) == Troubles() && tick == old(tick) + 3 + 2 * (|desired| - |preserved|)
      ensures r.Stranded? ==> old(Troubles()) < Troubles()
      ensures !r.Unchanged?
      ensures r.Refused? || r.Restored? ==> head == old(head) && file == old(file)
      ensures Kept(old(refs), refs) && (head != old(head) ==> BackedUp(refs, old(head)))
      ensures r.Integrated? ==>
                && file.Some? && file.value.base == main && Chain(main, file.value.entries) && head == Last(main, file.value.entries)
                && Matches(file.value.entries, desired) && file.value.entries[..|preserved|] == preserved
                && (Genuine(auto, base, preserved) ==> Genuine(auto, main, file.value.entries))
      ensures old(OwnFile()) && Genuine(auto, base, preserved) ==> OwnFile()
      ensures old(Troubles()) == Troubles() && (forall n :: names(n) !in old(refs)) && !r.Integrated? ==>
                r.Restored? && Conflicting(auto, main, desired)
    {
      hide Chain, Genuine, BackedUp, Failures, Ancestor, Matches, Last;
      var n := |preserved|;
      var o := BackUp();
      if o.Error? { return Refused; }
      if o.Crashed? { return Killed; }
      var entries;
      r, entries := Rebase(base, preserved, desired[n..]);
      assert desired[n..][..|entries| - n] == desired[..|entries|][n..] && desired[..|entries|][..n] == desired[..n];
      JoinedMatches(entries, desired[..|entries|], n);
      if r.Integrated? {
        assert desired[..|entries|] == desired;
      } else if r.Restored? && Troubles() == old(Troubles()) {
        assert ConflictsAfter(auto, main, entries, desired);
      }
    }

    /** Brings the branch to origin/main plus the pull requests, from any branch and any
        state file.  What a state file that describes the branch agrees on is reused, and if
        that is everything nothing is touched.  Without a failing operation only a conflict
        keeps it from succeeding. */
    method Apply(pullRequests: seq<PullRequest>) returns (r: Result, reused: nat)
      modifies this
      ensures Successful(r) ==> Integrates(Sort(pullRequests))
      ensures Successful(r) ==> FirstParents(head, main, Merges(main, file.value.entries))
      ensures Successful(r) && old(OwnFile()) ==>
                && |Notes(file.value.entries)| == |Sort(pullRequests)|
                && Rebuild(auto, main, HeadsOf(Sort(pullRequests)), Notes(file.value.entries)) == Some(head)
      ensures old(OwnFile()) ==> OwnFile()
      ensures r.Unchanged? || r.Refused? || r.Restored? ==> head == old(head) && file == old(file)
      ensures Kept(old(refs), refs)
      ensures head != old(head) ==> BackedUp(refs, old(head))
      ensures Successful(r) ==> Reuses(old(file), main, old(head), Sort(pullRequests), file.value.entries, reused)
      ensures !r.Refused? && !r.Killed? ==>
                (r.Unchanged? <==> old(file).Some? && Describes(old(file).value, main, old(head)) && Matches(old(file).value.entries, Sort(pullRequests)))
      ensures r.Unchanged? ==> refs == old(refs)
      ensures old(Troubles()) <= Troubles()
      ensures Successful(r) ==> old(Troubles()) == Troubles()
      ensures r.Unchanged? ==> tick == old(tick) + 1
      ensures r.Integrated? ==> tick == old(tick) + 4 + 2 * (|Sort(pullRequests)| - reused)
      ensures r.Stranded? ==> old(Troubles()) < Troubles()
      ensures old(Troubles()) == Troubles() && (forall n :: names(n) !in old(refs)) ==>
                || Successful(r)
                || (r.Restored? && Conflicting(auto, main, Sort(pullRequests)))
    {
      hide Chain, Genuine, BackedUp, Sort, FirstParents, Merges, Rebuild, Failures, Ancestor, Describes, Reuses, Conflicting;
      var desired := Sort(pullRequests);
      reused := 0;
      var o := Ensure();
      if o.Error? { return Refused, reused; }
      if o.Crashed? { return Killed, reused; }
      var base := main;
      var preserved, done := FindReusable(auto, file, base, head, desired);
      reused := |preserved|;
      if done {
        NowDescribed(file.value, base, head);
        assert desired[..|preserved|] == desired;
        ChainIsIntegration(auto, base, preserved, desired);
        return Unchanged, reused;
      }
      r := Renew(base, preserved, desired);
      if r.Integrated? {
        StillReuses(old(file), base, old(head), desired, preserved, file.value.entries);
        ChainIsIntegration(auto, base, file.value.entries, desired);
      }
    }
  }

  // --------------------------------------------------------------------- whole runs

  /** Move: someone commits to the branch or resets it.  Tamper: someone edits or
      deletes the state file. */
  datatype Event = Request(pullRequests: seq<PullRequest>) | Move(head: Commit) | Tamper(file: Option<State>)

  lemma StillBackedUp(before: map<nat, Commit>, after: map<nat, Commit>, c: Commit)
    requires Kept(before, after) && BackedUp(before, c)
    ensures BackedUp(after, c)
  {
  }

  /** Any run: the branch goes through `heads`, every one that a request replaced is
      still held by a recovery ref at the end, and the state file stays genuine unless
      someone tampers with it. */
  method Operate(w: Workspace, events: seq<Event>) returns (ghost heads: seq<Commit>, ghost files: seq<Option<State>>)
    modifies w
    ensures |heads| == |files| == |events| + 1
    ensures heads[0] == old(w.head) && heads[|events|] == w.head && files[0] == old(w.file) && files[|events|] == w.file
    ensures forall i | 0 <= i < |events| ::
              match events[i]
              case Request(_) => heads[i + 1] == heads[i] || BackedUp(w.refs, heads[i])
              case Move(c) => heads[i + 1] == c && files[i + 1] == files[i]
              case Tamper(file) => heads[i + 1] == heads[i] && files[i + 1] == file
    ensures Kept(old(w.refs), w.refs)
    ensures old(w.OwnFile()) && (forall i | 0 <= i < |events| :: !events[i].Tamper?) ==> w.OwnFile()
  {
    hide BackedUp, Genuine;
    heads, files := [w.head], [w.file];
    for n := 0 to |events|
      invariant |heads| == |files| == n + 1
      invariant heads[0] == old(w.head) && heads[n] == w.head && files[0] == old(w.file) && files[n] == w.file
      invariant forall i | 0 <= i < n ::
                  match events[i]
                  case Request(_) => heads[i + 1] == heads[i] || BackedUp(w.refs, heads[i])
                  case Move(c) => heads[i + 1] == c && files[i + 1] == files[i]
                  case Tamper(file) => heads[i + 1] == heads[i] && files[i + 1] == file
      invariant Kept(old(w.refs), w.refs)
      invariant old(w.OwnFile()) && (forall i | 0 <= i < n :: !events[i].Tamper?) ==> w.OwnFile()
    {
      ghost var refs := w.refs;
      match events[n] {
        case Request(pullRequests) =>
          var r, reused := w.Apply(pullRequests);
        case Move(c) =>
          w.head := c;
        case Tamper(file) =>
          w.file := file;
      }
      forall c | BackedUp(refs, c) ensures BackedUp(w.refs, c) {
        StillBackedUp(refs, w.refs, c);
      }
      heads, files := heads + [w.head], files + [w.file];
    }
  }
}
