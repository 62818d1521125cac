/**
 Compaction refinement: a peer that has discarded a prefix of its log answers
 as the peer holding the whole log would.
 */
module RaftCompaction {
  import opened RaftTypes
  import opened RaftPeer

  /** What is left of `full` after a snapshot up to `s`. */
  function Compacted(full: seq<Entry>, s: nat): seq<Entry>
    requires s < |full|
  {
    [Entry(s, full[s].term, NoCommand)] + full[s + 1..]
  }

  predicate Represents(p: Peer, full: seq<Entry>) {
    p.snapshotIndex < |full| && p.logs == Compacted(full, p.snapshotIndex)
  }

  /** The peer that never took a snapshot. */
  function Unfold(p: Peer, full: seq<Entry>): Peer {
    p.(snapshotIndex := 0, logs := full)
  }

  lemma {:induction false} RunStartCompacted(full: seq<Entry>, s: nat, i: nat)
    requires s < |full| && s + i < |full|
    ensures s + RunStart(Compacted(full, s), i) == Max(s, RunStart(full, s + i))
    decreases i
  {
    var logs := Compacted(full, s);
    if i > 0 && logs[i - 1].term == logs[i].term {
      RunStartCompacted(full, s, i - 1);
      assert full[s + i - 1].term == full[s + i].term;
    }
  }

  lemma {:induction false} MatchLenCompacted(full: seq<Entry>, s: nat, at: nat, entries: seq<Entry>)
    requires s < |full| && s + at <= |full|
    ensures MatchLen(Compacted(full, s), at, entries) == MatchLen(full, s + at, entries)
    decreases |entries|
  {
    var logs := Compacted(full, s);
    if entries != [] && at < |logs| && logs[at].term == entries[0].term {
      MatchLenCompacted(full, s, at + 1, entries[1..]);
    }
  }

  lemma MergeCompacted(full: seq<Entry>, s: nat, at: nat, entries: seq<Entry>)
    requires s < |full| && 0 < at && s + at <= |full|
    ensures Merge(Compacted(full, s), at, entries) == Compacted(Merge(full, s + at, entries), s)
  {
    MatchLenCompacted(full, s, at, entries);
    var m := MatchLen(full, s + at, entries);
    if m < |entries| {
      assert full[..s + at + m] + entries[m..] == Merge(full, s + at, entries);
      assert Compacted(full, s)[..at + m] + entries[m..] == Compacted(Merge(full, s + at, entries), s);
    }
  }

  lemma VoteRefines(p: Peer, full: seq<Entry>, args: VoteArgs)
    requires Represents(p, full)
    ensures var (q, reply) := HandleVote(p, args);
            HandleVote(Unfold(p, full), args) == (Unfold(q, full), reply) && Represents(q, full)
  {
    assert p.logs[|p.logs| - 1].term == full[|full| - 1].term;
  }

  lemma CaseRefines(q: Peer, full: seq<Entry>, args: AppendArgs)
    requires Represents(q, full) && args.prevIndex >= q.snapshotIndex
    ensures var reply, reply' := AppendCase(q, args), AppendCase(Unfold(q, full), args);
            && reply.term == reply'.term && reply.success == reply'.success
            && (!reply.success ==> reply.conflictIndex == Max(q.snapshotIndex, reply'.conflictIndex))
  {
    var local := args.prevIndex - q.snapshotIndex;
    if local < |q.logs| {
      assert q.logs[local].term == full[args.prevIndex].term;
      RunStartCompacted(full, q.snapshotIndex, local);
    }
  }

  lemma StoreRefines(q: Peer, full: seq<Entry>, args: AppendArgs)
    requires Represents(q, full) && q.snapshotIndex <= args.prevIndex < |full|
    ensures var full' := Merge(full, args.prevIndex + 1, args.entries);
            Store(Unfold(q, full), args) == Unfold(Store(q, args), full') && Represents(Store(q, args), full')
  {
    hide Merge, MatchLen;
    MergeCompacted(full, q.snapshotIndex, args.prevIndex - q.snapshotIndex + 1, args.entries);
  }

  /** Same verdict, term, log and commit index; the conflict index is cut off at the snapshot. */
  lemma AppendRefines(p: Peer, full: seq<Entry>, args: AppendArgs)
    requires Represents(p, full) && args.prevIndex >= p.snapshotIndex
    ensures var (q, reply) := HandleAppend(p, args);
            var (q', reply') := HandleAppend(Unfold(p, full), args);
            && q' == Unfold(q, q'.logs) && Represents(q, q'.logs)
            && reply.term == reply'.term && reply.success == reply'.success
            && (!reply.success && args.term >= p.term ==>
                  reply.conflictIndex == Max(p.snapshotIndex, reply'.conflictIndex))
  {
    if args.term >= p.term {
      var q := Heed(p, args.term);
      assert Unfold(q, full) == Heed(Unfold(p, full), args.term);
      CaseRefines(q, full, args);
      if AppendCase(q, args).success {
        StoreRefines(q, full, args);
      }
    }
  }

  lemma AppendSucceeds(p: Peer, full: seq<Entry>, args: AppendArgs)
    requires Represents(p, full) && HandleAppend(p, args).1.success
    ensures args.term >= p.term && p.snapshotIndex <= args.prevIndex < |full|
    ensures full[args.prevIndex].term == args.prevTerm
    ensures Represents(HandleAppend(p, args).0, Merge(full, args.prevIndex + 1, args.entries))
  {
    var q := Heed(p, args.term);
    CaseRefines(q, full, args);
    StoreRefines(q, full, args);
  }

  lemma CompactRefines(p: Peer, full: seq<Entry>, index: nat)
    requires Represents(p, full)
    ensures Represents(Compact(p, index), full)
    ensures Unfold(Compact(p, index), full) == Unfold(p, full)
  {
    if p.snapshotIndex < index < |full| {
      assert Compact(p, index).logs == Compacted(full, index);
    }
  }

  /** Installing a snapshot of `leader` keeps the log if it has the last included entry, else takes the leader's. */
  lemma SnapshotRefines(p: Peer, full: seq<Entry>, leader: seq<Entry>, args: SnapshotArgs)
    requires Represents(p, full) && args.term >= p.term
    requires args.lastIndex < |leader| && leader[args.lastIndex].term == args.lastTerm
    requires args.lastIndex > p.snapshotIndex && args.lastIndex > p.commitIndex
    ensures var kept := args.lastIndex < |full| && full[args.lastIndex].term == args.lastTerm;
            var full' := if kept then full else leader[..args.lastIndex + 1];
            Represents(HandleSnapshot(p, args).0, full')
  {
    var q := HandleSnapshot(p, args).0;
    var local := args.lastIndex - p.snapshotIndex;
    if args.lastIndex < |full| && full[args.lastIndex].term == args.lastTerm {
      assert p.logs[local + 1..] == full[args.lastIndex + 1..];
      assert q.logs == Compacted(full, args.lastIndex);
    } else {
      assert q.logs == Compacted(leader[..args.lastIndex + 1], args.lastIndex);
    }
  }

  /** Every stored entry is at position `globalIndex - snapshotIndex`. */
  lemma StoredIndices(p: Peer, full: seq<Entry>, i: nat)
    requires Represents(p, full) && i < |p.logs|
    requires forall k :: 0 <= k < |full| ==> full[k].globalIndex == k
    ensures p.logs[i].globalIndex == p.snapshotIndex + i && p.logs[i].term == full[p.snapshotIndex + i].term
    ensures i > 0 ==> p.logs[i] == full[p.snapshotIndex + i]
  {
  }
}
