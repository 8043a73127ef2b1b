/** The client's side of a resume: `_Subscription` and the parts of `BrokerClient` in
    `pubsub/transport/client.py` that keep handles alive across reconnects. */
module Client {
  import opened Common
  import opened Resume

  class Subscription {
    const selector: string
    const replayPolicy: ReplayPolicy
    var serverSid: Option<nat>
    var lastAckedTs: Option<real>

    constructor (selector: string, replayPolicy: ReplayPolicy)
      ensures this.selector == selector && this.replayPolicy == replayPolicy
      ensures serverSid == None && lastAckedTs == None
    {
      this.selector, this.replayPolicy := selector, replayPolicy;
      serverSid, lastAckedTs := None, None;
    }

    /** `ack` up to the frame it sends, for a message created at `ts`. */
    method Ack(ts: real)
      modifies this`lastAckedTs
      ensures lastAckedTs == Advanced(old(lastAckedTs), ts)
    {
      if lastAckedTs.None? || ts > lastAckedTs.value {
        lastAckedTs := Some(ts);
      }
    }

    method NextPolicy() returns (policy: ReplayPolicy)
      ensures policy == ResumePolicy(replayPolicy, lastAckedTs)
    {
      if replayPolicy.FromUnixTimestamp? {
        if lastAckedTs.Some? {
          return FromUnixTimestamp(lastAckedTs.value);
        }
        return replayPolicy;
      }
      return FutureOnly;
    }
  }

  /** A `SUBSCRIBE` frame, and what becomes of it: the server's id, its error, or no answer on a connection
      that is lost. */
  datatype Request = Request(selector: string, replay: ReplayPolicy)
  datatype Answer = SubscribeOk(sid: nat) | Refused | ConnectionLost

  predicate DistinctSids(answers: seq<Answer>) {
    forall i, j | 0 <= i < j < |answers| && answers[i].SubscribeOk? && answers[j].SubscribeOk? ::
      answers[i].sid != answers[j].sid
  }

  class BrokerClient {
    /** `_subs`, whose values keep their order, and the handles by current server id. */
    var subs: seq<Subscription>
    var byServer: map<nat, Subscription>
    /** Every `SUBSCRIBE` frame sent. */
    ghost var requests: seq<Request>

    ghost predicate Distinct()
      reads this`subs
    {
      forall i, j | 0 <= i < j < |subs| :: subs[i] != subs[j]
    }

    lemma OthersDiffer(n: nat)
      requires Distinct() && n < |subs|
      ensures forall i | 0 <= i < |subs| && i != n :: subs[i] != subs[n]
    {
    }

    constructor ()
      ensures subs == [] && byServer == map[] && requests == []
    {
      subs, byServer, requests := [], map[], [];
    }

    /** `_on_disconnect`: no server id survives. */
    method OnDisconnect()
      modifies this`byServer
      ensures byServer == map[]
    {
      byServer := map[];
    }

    /** `_activate`: false when it raises. */
    method Activate(sub: Subscription, policy: ReplayPolicy, answer: Answer) returns (done: bool)
      modifies this`byServer, this`requests, sub`serverSid
      ensures done == answer.SubscribeOk? && requests == old(requests) + [Request(sub.selector, policy)]
      ensures done ==> byServer == old(byServer)[answer.sid := sub] && sub.serverSid == Some(answer.sid)
      ensures !done ==> byServer == old(byServer) && sub.serverSid == old(sub.serverSid)
    {
      requests := requests + [Request(sub.selector, policy)];
      if !answer.SubscribeOk? {
        return false;
      }
      sub.serverSid := Some(answer.sid);
      byServer := byServer[answer.sid := sub];
      return true;
    }

    /** The frame that resumes a handle. */
    ghost function Resuming(sub: Subscription): Request
      reads sub
    {
      Request(sub.selector, ResumePolicy(sub.replayPolicy, sub.lastAckedTs))
    }

    /** The first `n` handles, and no other, are live under the ids that `answers` gave them. */
    ghost predicate Resumed(answers: seq<Answer>, n: nat)
      requires n <= |subs| <= |answers| && forall i | 0 <= i < n :: answers[i].SubscribeOk?
      reads this, subs
    {
      && (forall i | 0 <= i < n :: subs[i].serverSid == Some(answers[i].sid))
      && (forall i | 0 <= i < n :: answers[i].sid in byServer && byServer[answers[i].sid] == subs[i])
      && (forall sid <- byServer :: exists i | 0 <= i < n :: answers[i].sid == sid)
    }

    /** Since `before` exactly the first `n` handles were asked for, in order. */
    ghost predicate Asked(before: seq<Request>, n: nat)
      requires n <= |subs|
      reads this, subs
    {
      |requests| == |before| + n && before <= requests
      && forall i | 0 <= i < n :: requests[|before| + i] == Resuming(subs[i])
    }

    /** `_resume_all` on a fresh connection. It asks for every live handle in turn, each with its own resume
        policy, until `answers` holds an error or the connection is lost; each new server id leads to its
        own handle, and what consumers have acked stays. */
    method ResumeAll(answers: seq<Answer>) returns (n: nat)
      requires Distinct() && byServer == map[] && |answers| == |subs| && DistinctSids(answers)
      modifies this`byServer, this`requests, subs`serverSid
      ensures n <= |subs| && (forall i | 0 <= i < n :: answers[i].SubscribeOk?)
      ensures n < |subs| ==> !answers[n].SubscribeOk?
      ensures Resumed(answers, n) && Asked(old(requests), if n < |subs| then n + 1 else n)
      ensures forall i | n <= i < |subs| :: subs[i].serverSid == old(subs[i].serverSid)
    {
      n := 0;
      assert Resumed(answers, 0) && Asked(requests, 0);
      hide Resumed, Asked, Distinct, DistinctSids;
      while n < |subs|
        invariant n <= |subs| && forall i | 0 <= i < n :: answers[i].SubscribeOk?
        invariant Resumed(answers, n) && Asked(old(requests), n)
        invariant forall i | n <= i < |subs| :: subs[i].serverSid == old(subs[i].serverSid)
      {
        OthersDiffer(n);
        var done := ResumeOne(subs[n], answers, n, old(requests));
        if !done {
          return;
        }
        n := n + 1;
      }
    }

    method ResumeOne(sub: Subscription, answers: seq<Answer>, n: nat, ghost before: seq<Request>)
      returns (done: bool)
      requires Distinct() && n < |subs| == |answers| && sub == subs[n] && DistinctSids(answers)
      requires forall i | 0 <= i < n :: answers[i].SubscribeOk?
      requires Resumed(answers, n) && Asked(before, n)
      modifies this`byServer, this`requests, sub`serverSid
      ensures done == answers[n].SubscribeOk? && Asked(before, n + 1)
      ensures if done then Resumed(answers, n + 1) else Resumed(answers, n)
      ensures !done ==> sub.serverSid == old(sub.serverSid)
    {
      var policy := sub.NextPolicy();
      done := Activate(sub, policy, answers[n]);
    }
  }
}
