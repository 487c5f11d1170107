/**
  What a proof about a run has to remember: who won each term and with which log, every
  vote, the log each candidate campaigned with, and how far each peer has ever matched the
  leader of each term. None of it is visible to the implementation.
 */
module RaftHistory {
  import opened RaftSpec
  import opened Sets

  /** A won term: the winner, the voters that elected it, and its log, which only grows. */
  datatype Reign = Reign(winner: int, electors: set<int>, log: seq<Entry>)

  datatype History = History(
    reigns: map<int, Reign>,
    votes: map<(int, int), int>,            // (term, voter) -> candidate
    campaigns: map<(int, int), seq<Entry>>, // (candidate, term) -> log
    acks: map<(int, int), int>)             // (peer, term) -> highest index matched

  // ---- logs ----

  ghost predicate Agree(a: seq<Entry>, b: seq<Entry>, k: int) {
    0 <= k <= |a| && k <= |b| && forall j | 0 <= j < k :: a[j] == b[j]
  }

  ghost predicate Rising(l: seq<Entry>) {
    forall x, y | 0 <= x < y < |l| :: l[x].term <= l[y].term
  }

  function LastTerm(l: seq<Entry>): int
    requires |l| > 0
  {
    l[|l| - 1].term
  }

  /** The prefix of l up to any entry is a prefix of the log of that entry's leader. */
  ghost predicate Backed(reigns: map<int, Reign>, l: seq<Entry>) {
    && |l| > 0 && l[0] == ORIGIN
    && forall k {:trigger BackedAt(reigns, l, k)} | 1 <= k < |l| :: BackedAt(reigns, l, k)
  }

  ghost predicate BackedAt(reigns: map<int, Reign>, l: seq<Entry>, k: int)
    requires 0 <= k < |l|
  {
    l[k].term in reigns && Agree(l, reigns[l[k].term].log, k + 1)
  }

  lemma LogsMatch(reigns: map<int, Reign>, a: seq<Entry>, b: seq<Entry>, k: int)
    requires Backed(reigns, a) && Backed(reigns, b)
    requires 0 <= k < |a| && k < |b| && a[k].term == b[k].term
    ensures Agree(a, b, k + 1)
  {
    if k == 0 {
      assert a[0] == b[0];
    } else {
      assert BackedAt(reigns, a, k) && BackedAt(reigns, b, k);
      var L := reigns[a[k].term].log;
      assert Agree(b, L, k + 1);
    }
  }

  lemma AgreeTrans(a: seq<Entry>, b: seq<Entry>, c: seq<Entry>, j: int, k: int)
    requires Agree(a, b, j) && Agree(b, c, k)
    ensures Agree(a, c, if j <= k then j else k)
  {
  }

  /** The entries sit in L right after index prev. */
  ghost predicate Stretch(L: seq<Entry>, prev: nat, entries: seq<Entry>) {
    prev + |entries| < |L| && forall j | 0 <= j < |entries| :: entries[j] == L[prev + 1 + j]
  }

  /** The incoming stretch of a leader's log agrees with ours up to the first mismatch. */
  lemma MatchAgrees(reigns: map<int, Reign>, l: seq<Entry>, L: seq<Entry>, prev: nat, entries: seq<Entry>, k: nat)
    requires Backed(reigns, l) && Backed(reigns, L) && Stretch(L, prev, entries)
    requires prev + k < |l| && k <= |entries|
    requires if k == 0 then l[prev].term == L[prev].term else l[prev + k].term == entries[k - 1].term
    ensures Agree(l, L, prev + 1 + k)
  {
    LogsMatch(reigns, l, L, prev + k);
  }

  /** Merging a stretch of a leader's log either changes nothing or yields that leader's log. */
  lemma MergeFollows(reigns: map<int, Reign>, l: seq<Entry>, L: seq<Entry>, prev: nat, entries: seq<Entry>)
    requires Backed(reigns, l) && Backed(reigns, L) && Stretch(L, prev, entries)
    requires prev < |l| && l[prev].term == L[prev].term
    ensures var m := Merge(l, prev, entries);
      && Agree(m, L, prev + 1 + |entries|)
      && (m == l || m == L[..prev + 1 + |entries|])
  {
    var k := MatchLen(l, prev + 1, entries);
    if k > 0 {
      assert l[prev + 1 + (k - 1)].term == entries[k - 1].term;
    }
    MatchAgrees(reigns, l, L, prev, entries, k);
    SplicedIs(l, L, prev, entries, k);
  }

  lemma SplicedIs(l: seq<Entry>, L: seq<Entry>, prev: nat, entries: seq<Entry>, k: nat)
    requires Stretch(L, prev, entries) && k <= |entries| && Agree(l, L, prev + 1 + k)
    ensures l[..prev + 1 + k] + entries[k..] == L[..prev + 1 + |entries|]
  {
    var m := l[..prev + 1 + k] + entries[k..];
    forall j | 0 <= j < |m| ensures m[j] == L[j] {
      if j > prev + k { assert entries[j - prev - 1] == L[j]; }
    }
  }

  /** ... and never loses what the old log and the leader's log both share with a third log. */
  lemma MergeKeeps(reigns: map<int, Reign>, l: seq<Entry>, L: seq<Entry>, prev: nat, entries: seq<Entry>,
                   X: seq<Entry>, j: int)
    requires Backed(reigns, l) && Backed(reigns, L) && Stretch(L, prev, entries)
    requires prev < |l| && l[prev].term == L[prev].term
    requires Agree(l, X, j) && Agree(L, X, j)
    ensures Agree(Merge(l, prev, entries), X, j)
  {
    MergeFollows(reigns, l, L, prev, entries);
    var k := MatchLen(l, prev + 1, entries);
    assert k < |entries| ==> entries[k] == L[prev + 1 + k];
    BothShare(l, L, X, j);
  }

  lemma BothShare(a: seq<Entry>, b: seq<Entry>, c: seq<Entry>, k: int)
    requires Agree(a, c, k) && Agree(b, c, k)
    ensures Agree(a, b, k)
  {
  }

  // ---- acknowledgement and choice ----

  /** Index i of the log of term t was written in term t. */
  ghost predicate OwnIndex(h: History, t: int, i: int) {
    t in h.reigns && 1 <= i < |h.reigns[t].log| && h.reigns[t].log[i].term == t
  }

  ghost predicate Holds(h: History, l: seq<Entry>, t: int, i: int)
    requires OwnIndex(h, t, i)
  {
    Agree(l, h.reigns[t].log, i + 1)
  }

  ghost predicate AckedAt(h: History, q: int, t: int, i: int) {
    OwnIndex(h, t, i) && (q, t) in h.acks && i <= h.acks[(q, t)]
  }

  ghost function AckSet(h: History, n: nat, t: int, i: int): set<int> {
    set q | 0 <= q < n && (q, t) in h.acks && i <= h.acks[(q, t)]
  }

  /** A majority matched the leader of term t up to an entry of term t. */
  ghost predicate Chosen(h: History, n: nat, t: int, i: int) {
    OwnIndex(h, t, i) && 2 * |AckSet(h, n, t, i)| > n
  }

  /** Some leader between t and `upTo` went without index i of term t. */
  ghost predicate Dropped(h: History, t: int, i: int, upTo: int)
    requires OwnIndex(h, t, i)
  {
    exists u :: t < u <= upTo && u in h.reigns && !Holds(h, h.reigns[u].log, t, i)
  }

  /** Whatever q matched before term `upTo` is in l, or some leader in between dropped it. */
  ghost predicate Covers(h: History, q: int, l: seq<Entry>, below: int, upTo: int) {
    forall t, i {:trigger AckedAt(h, q, t, i)} | t < below && AckedAt(h, q, t, i) ::
      Holds(h, l, t, i) || Dropped(h, t, i, upTo)
  }

  /** l up to c is part of something chosen in a term no later than `term`. */
  ghost predicate Committed(h: History, n: nat, l: seq<Entry>, c: int, term: int) {
    && 0 <= c < |l|
    && (c == 0 || exists t, i :: ChosenPast(h, n, l, c, term, t, i))
  }

  ghost predicate ChosenPast(h: History, n: nat, l: seq<Entry>, c: int, term: int, t: int, i: int) {
    t <= term && Chosen(h, n, t, i) && c <= i && Agree(l, h.reigns[t].log, c + 1)
  }

  /** The voters whose granted calls have returned to candidate c in term t. */
  ghost function Supporters(h: History, n: nat, returned: set<(int, int, int)>, c: int, t: int): set<int> {
    set v | 0 <= v < n && (c, t, v) in returned && (t, v) in h.votes && h.votes[(t, v)] == c
  }

  // ---- the invariant on the history alone ----

  ghost predicate ReignOk(h: History, n: nat, t: int)
    requires t in h.reigns
  {
    var r := h.reigns[t];
    && 1 <= t
    && Backed(h.reigns, r.log) && Rising(r.log) && LastTerm(r.log) <= t
    && 0 <= r.winner < n
    && (r.winner, t) in h.campaigns
    && (forall v | v in r.electors :: 0 <= v < n && (t, v) in h.votes && h.votes[(t, v)] == r.winner)
    && 2 * |r.electors| > n
    && (r.winner, t) in h.acks && h.acks[(r.winner, t)] == |r.log| - 1
    && (forall v {:trigger ElectorOk(h, t, v)} | v in r.electors :: ElectorOk(h, t, v))
  }

  /** What an elector had matched before is in the log of the leader it elected. */
  ghost predicate ElectorOk(h: History, t: int, v: int)
    requires t in h.reigns
  {
    Covers(h, v, h.reigns[t].log, t, t - 1)
  }

  ghost predicate VoteOk(h: History, n: nat, t: int, v: int)
    requires (t, v) in h.votes
  {
    var c := h.votes[(t, v)];
    && 0 <= v < n && 0 <= c < n
    && (c, t) in h.campaigns
    && Covers(h, v, h.campaigns[(c, t)], t, t)
  }

  ghost predicate CampaignOk(h: History, n: nat, c: int, t: int)
    requires (c, t) in h.campaigns
  {
    var l := h.campaigns[(c, t)];
    && 0 <= c < n && (t, c) in h.votes && h.votes[(t, c)] == c
    && Backed(h.reigns, l) && LastTerm(l) < t
  }

  ghost predicate AckOk(h: History, n: nat, q: int, t: int)
    requires (q, t) in h.acks
  {
    0 <= q < n && t in h.reigns && 0 <= h.acks[(q, t)] < |h.reigns[t].log|
  }

  ghost predicate HistoryInv(h: History, n: nat) {
    && (forall t {:trigger ReignOk(h, n, t)} | t in h.reigns :: ReignOk(h, n, t))
    && (forall t, v {:trigger VoteOk(h, n, t, v)} | (t, v) in h.votes :: VoteOk(h, n, t, v))
    && (forall c, t {:trigger CampaignOk(h, n, c, t)} | (c, t) in h.campaigns :: CampaignOk(h, n, c, t))
    && (forall q, t {:trigger AckOk(h, n, q, t)} | (q, t) in h.acks :: AckOk(h, n, q, t))
  }

  lemma BackedRising(h: History, n: nat, l: seq<Entry>)
    requires HistoryInv(h, n) && Backed(h.reigns, l)
    ensures Rising(l)
  {
    if |l| > 1 {
      assert BackedAt(h.reigns, l, |l| - 1);
      assert ReignOk(h, n, LastTerm(l));
    }
  }

  // ---- leader completeness ----

  /** Whatever was chosen in a term is in the log of every later leader. */
  lemma LeaderCompleteness(h: History, n: nat, t: int, i: int, u: int)
    requires HistoryInv(h, n) && Chosen(h, n, t, i)
    requires t < u && u in h.reigns
    ensures Holds(h, h.reigns[u].log, t, i)
    decreases u - t
  {
    assert ReignOk(h, n, u);
    var v := QuorumsMeet(n, h.reigns[u].electors, AckSet(h, n, t, i));
    assert ElectorOk(h, u, v);
    assert AckedAt(h, v, t, i);
    if Dropped(h, t, i, u - 1) {
      var w :| t < w <= u - 1 && w in h.reigns && !Holds(h, h.reigns[w].log, t, i);
      LeaderCompleteness(h, n, t, i, w);
    }
  }

  /** The logs of two terms agree on what was chosen in either. */
  lemma ChosenAgree(h: History, n: nat, t: int, i: int, u: int, j: int, k: int)
    requires HistoryInv(h, n) && Chosen(h, n, t, i) && Chosen(h, n, u, j) && 0 <= k <= i && k <= j
    ensures Agree(h.reigns[t].log, h.reigns[u].log, k + 1)
  {
    if t < u {
      LeaderCompleteness(h, n, t, i, u);
    } else if u < t {
      LeaderCompleteness(h, n, u, j, t);
    }
  }

  /** Two committed prefixes never disagree. */
  lemma CommittedAgree(h: History, n: nat, a: seq<Entry>, c: int, ta: int, b: seq<Entry>, d: int, tb: int)
    requires HistoryInv(h, n)
    requires Committed(h, n, a, c, ta) && Committed(h, n, b, d, tb) && c <= d
    requires a[0] == b[0]
    ensures Agree(a, b, c + 1)
  {
    if c > 0 {
      var t, i :| ChosenPast(h, n, a, c, ta, t, i);
      var u, j :| ChosenPast(h, n, b, d, tb, u, j);
      ChosenAgree(h, n, t, i, u, j, c);
      AgreeTrans(a, h.reigns[t].log, h.reigns[u].log, c + 1, c + 1);
    }
  }
}
