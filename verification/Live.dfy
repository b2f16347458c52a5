/** The two halves of a stream, which decide by topic apart from each other: the hub for what is
    delivered live, the replay for what is read back. */
module Live {
  import opened Text
  import opened Bus
  import opened Picks
  import opened Stream
  import B = BusQueue

  /** What the hub keeps of the topics of a subscription. */
  function TopicSet(topics: seq<string>): set<string> { set t | t in topics && t != "" }

  /** They decide alike on every topic exactly for the lists that hold no empty topic. */
  lemma AgreeIffNoneEmpty(topics: seq<string>)
    ensures "" !in topics <==>
            forall topic :: (TopicSet(topics) == {} || topic in TopicSet(topics)) <==> (topics == [] || topic in topics)
  {
    if "" in topics {
      if TopicSet(topics) == {} {
        var other := LongerThanAll(topics);
        assert TopicSet(topics) == {} && topics != [] && other !in topics;
      } else {
        assert "" !in TopicSet(topics) && "" in topics;
      }
    } else if topics != [] {
      assert topics[0] in TopicSet(topics);
    }
  }

  /** Some topic is not in a list. */
  lemma {:induction false} LongerThanAll(topics: seq<string>) returns (s: string)
    ensures forall t :: t in topics ==> |t| < |s|
  {
    if topics == [] {
      s := "x";
    } else {
      var rest := LongerThanAll(topics[1..]);
      s := rest + topics[0] + "x";
      assert topics == [topics[0]] + topics[1..];
    }
  }

  lemma {:induction false} NoneBlank(parts: seq<string>)
    ensures forall t :: t in NonBlank(parts) <==> t != "" && exists p :: p in parts && TrimSpace(p) == t
  {
    if parts == [] {
    } else {
      NoneBlank(parts[..|parts| - 1]);
      assert parts == parts[..|parts| - 1] + [parts[|parts| - 1]];
    }
  }

  /** The topics a stream asks for are the trimmed parts of the query that are not blank. */
  lemma TopicsAre(raw: string)
    ensures TrimSpace(raw) == "" ==> Topics(raw) == []
    ensures TrimSpace(raw) != "" ==>
              forall t :: t in Topics(raw) <==> t != "" && exists p :: p in Split(raw, ',') && TrimSpace(p) == t
  {
    NoneBlank(Split(raw, ','));
  }

  /** Live delivery and replay cannot disagree: a client subscribed with the topics of a query is
      given, of the publications made while it was in the hub, exactly those that replay would
      pass for the same topics, each once and in order. */
  lemma LiveAsReplayed(h: Hub, c: Client, raw: string) returns (span: seq<B.Event>, picks: seq<nat>)
    requires h.Valid() && c in h.all && c.topics == TopicSet(Topics(raw))
    ensures c.joined <= (if c in h.clients then |h.given| else c.left) <= |h.given|
    ensures span == h.given[c.joined..if c in h.clients then |h.given| else c.left]
    ensures |picks| == |c.q.wanted|
    ensures forall k :: 0 <= k < |picks| ==> picks[k] < |span| && c.q.wanted[k] == span[picks[k]]
    ensures forall j, k :: 0 <= j < k < |picks| ==> picks[j] < picks[k]
    ensures forall i: nat :: i < |span| ==> (i in picks <==> Topics(raw) == [] || span[i].topic in Topics(raw))
  {
    TopicsAre(raw);
    AgreeIffNoneEmpty(Topics(raw));
    span, picks := ClientGivenItsTopics(h, c);
    if c.topics == {} { picks := seq(|span|, i => i); }
    forall i: nat | i < |span| ensures i in picks <==> Topics(raw) == [] || span[i].topic in Topics(raw) {
      assert (TopicSet(Topics(raw)) == {} || span[i].topic in TopicSet(Topics(raw)))
             <==> (Topics(raw) == [] || span[i].topic in Topics(raw));
      if c.topics == {} {
        assert picks[i] == i;
      } else if span[i].topic in c.topics {
        AllPicked(picks, |span|, |span|, Where(span, (e: B.Event) => e.topic in c.topics), i);
      }
    }
  }
}
