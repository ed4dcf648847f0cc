// Distributing one activity to the inboxes of all followers.

module Broadcast {
  import opened Common

  type Url = string

  /** An accepted follower's optional shared inbox and personal inbox. */
  type FollowerRow = (Option<Url>, Url)

  function InboxOf(row: FollowerRow): Url {
    row.0.GetOr(row.1)
  }

  predicate Distinct(urls: seq<Url>) {
    forall i, j :: 0 <= i < j < |urls| ==> urls[i] != urls[j]
  }

  /** follower_delivery_inboxes: each inbox once, shared inboxes preferred. */
  method FollowerInboxes(rows: seq<FollowerRow>) returns (inboxes: seq<Url>)
    ensures Distinct(inboxes)
    ensures forall url :: url in inboxes <==> exists row :: row in rows && InboxOf(row) == url
    ensures forall row :: row in rows ==> (if row.0.Some? then row.0.value in inboxes else row.1 in inboxes)
  {
    var seen: set<Url> := {};
    inboxes := [];
    for i := 0 to |rows|
      invariant Distinct(inboxes)
      invariant forall url :: url in seen <==> url in inboxes
      invariant forall url :: url in inboxes ==> exists k :: 0 <= k < i && InboxOf(rows[k]) == url
      invariant forall k :: 0 <= k < i ==> InboxOf(rows[k]) in inboxes
    {
      var url := InboxOf(rows[i]);
      if url !in seen {
        seen := seen + {url};
        inboxes := inboxes + [url];
      }
    }
  }

  /** The two tables a broadcast writes: stored activity URIs, which are unique, and delivery jobs. */
  class Outbox {
    var activities: set<string>
    var jobs: seq<(string, Url)>

    constructor ()
      ensures activities == {} && jobs == []
    {
      activities, jobs := {}, [];
    }

    /** queue_outbound_activity: the insert fails when the URI is already stored. */
    method QueueOutbound(uri: string, inbox: Url) returns (ok: bool)
      modifies this
      ensures ok <==> uri !in old(activities)
      ensures activities == old(activities) + {uri}
      ensures jobs == old(jobs) + if ok then [(uri, inbox)] else []
    {
      if uri in activities { return false; }
      activities := activities + {uri};
      jobs := jobs + [(uri, inbox)];
      ok := true;
    }

    /**
     * broadcast_to_followers. Every inbox stores the same activity URI, so only the first insert can succeed: an
     * activity reaches all follower inboxes exactly when there is at most one of them.
     */
    method BroadcastToFollowers(uri: string, rows: seq<FollowerRow>) returns (ok: bool, ghost inboxes: seq<Url>)
      requires uri !in activities
      modifies this
      ensures Distinct(inboxes)
      ensures forall url :: url in inboxes <==> exists row :: row in rows && InboxOf(row) == url
      ensures ok <==> |inboxes| <= 1
      ensures jobs == old(jobs) + JobsOf(uri, inboxes)
    {
      var urls := FollowerInboxes(rows);
      inboxes := urls;
      for i := 0 to |urls|
        invariant i <= 1
        invariant activities == old(activities) + if i == 0 then {} else {uri}
        invariant jobs == old(jobs) + if i == 0 then [] else [(uri, urls[0])]
      {
        var queued := QueueOutbound(uri, urls[i]);
        if !queued { return false, inboxes; }
      }
      ok := true;
    }
  }

  /** The jobs a broadcast leaves behind: the unique activity URI lets only the first inbox have one. */
  function JobsOf(uri: string, inboxes: seq<Url>): seq<(string, Url)> {
    if inboxes == [] then [] else [(uri, inboxes[0])]
  }

  /** All followers are reached exactly when they share one inbox; with two different inboxes the second is missed. */
  lemma EveryoneReachedExactlyWhen(uri: string, inboxes: seq<Url>)
    requires Distinct(inboxes)
    ensures (forall url :: url in inboxes ==> (uri, url) in JobsOf(uri, inboxes)) <==> |inboxes| <= 1
    ensures Distinct(["https://a/inbox", "https://b/inbox"])
            && (uri, "https://b/inbox") !in JobsOf(uri, ["https://a/inbox", "https://b/inbox"])
  {
    assert "https://a/inbox"[8] != "https://b/inbox"[8];
    if |inboxes| > 1 { assert inboxes[1] in inboxes && inboxes[1] != inboxes[0]; }
  }
}
