/**
 Where compaction breaks the leader: a follower whose snapshot is ahead of the
 probe answers with the end of its own log, which may lie beyond the leader's.
 */
module RaftCompactionEdge {
  import opened RaftTypes
  import opened RaftPeer
  import opened RaftCompaction

  /** The probe carries the leader's log from its previous index on, with the term found there. */
  predicate Faithful(full: seq<Entry>, args: AppendArgs) {
    && args.prevIndex < |full| && args.prevTerm == full[args.prevIndex].term
    && args.entries == full[args.prevIndex + 1..]
  }

  /** A probe is faithful exactly while the next index has not passed the end of the leader's log. */
  lemma ProbeFaithfulIff(p: Peer, full: seq<Entry>, to: nat)
    requires Represents(p, full) && p.role == Leader && to < |p.nextIndex| && p.nextIndex[to] > p.snapshotIndex
    ensures var probe := CheckConsistency(p, to);
            probe.SendAppend? && (Faithful(full, probe.append) <==> p.nextIndex[to] <= p.Last() + 1)
  {
    var prev := p.nextIndex[to] - 1;
    var local := prev - p.snapshotIndex;
    if local < |p.logs| {
      assert p.logs[local + 1..] == full[prev + 1..];
    }
  }

  /** A refusal keeps the next index inside the leader's log unless the follower's snapshot is ahead of the probe. */
  lemma RefusalOvershootsIff(p: Peer, from: nat, follower: Peer, args: AppendArgs)
    requires WellFormed(p, |p.nextIndex|) && p.role == Leader && from < |p.nextIndex| && |follower.logs| > 0
    requires args.prevIndex <= p.Last() && args.term == p.term >= follower.term
    requires !HandleAppend(follower, args).1.success
    ensures var q := HandleAppendReply(p, from, args, HandleAppend(follower, args).1);
            && q.Some?
            && (q.value.nextIndex[from] > p.Last() + 1 <==>
                  args.prevIndex < follower.snapshotIndex && follower.Last() > p.Last())
  {
  }
}
