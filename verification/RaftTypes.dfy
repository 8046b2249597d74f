/** Values shared by the models: optional values, votes and log ids with their total orders. */
module RaftTypes {

  datatype Option<+T> = None | Some(value: T)

  /** A leader id of the advanced scheme: totally ordered by term, then by node. */
  datatype LeaderId = LeaderId(term: nat, node: nat) {

    predicate Less(that: LeaderId) {
      term < that.term || (term == that.term && node < that.node)
    }
  }

  /** A log id: the proposing leader, then the index. The leader is compared first. */
  datatype LogId = LogId(leader: LeaderId, index: nat) {

    predicate Less(that: LogId) {
      leader.Less(that.leader) || (leader == that.leader && index < that.index)
    }

    predicate AtMost(that: LogId) {
      this == that || this.Less(that)
    }
  }

  predicate Upto(a: LeaderId, b: LeaderId) {
    a == b || a.Less(b)
  }

  /** A vote for a leader; `committed` once a quorum granted it. */
  datatype Vote = Vote(leader: LeaderId, committed: bool) {

    predicate Less(that: Vote) {
      leader.Less(that.leader) || (leader == that.leader && !committed && that.committed)
    }

    predicate AtMost(that: Vote) {
      this == that || this.Less(that)
    }
  }

  /** The index after a log id, 0 for none. */
  function NextIndex(id: Option<LogId>): nat {
    match id
    case None => 0
    case Some(x) => x.index + 1
  }
}
