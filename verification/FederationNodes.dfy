// The federation handlers as methods over the tables they change.

module FederationNodes {
  import opened Replica

  class OriginNode {
    var videos: map<VideoId, Video>
    var outbox: seq<Activity>

    function State(): Origin
      reads this
    {
      Origin(videos, outbox)
    }

    constructor (stored: map<VideoId, Video>)
      ensures State() == Origin(stored, [])
    {
      videos, outbox := stored, [];
    }

    /** update_video, with the publication it spawns. */
    method UpdateVideo(e: Edit) returns (ok: bool)
      modifies this
      ensures State() == EditVideo(old(State()), e)
      ensures ok <==> e.video in old(videos) && old(videos)[e.video].owner == e.caller
      ensures !ok ==> State() == old(State())
      ensures ok ==>
                var was := old(videos)[e.video];
                var visibility := if e.visibility.Some? then e.visibility.value else was.visibility;
                var created := visibility.Public? && !was.visibility.Public?;
                && videos == old(videos)[e.video := Video(was.owner, e.title, e.description, visibility,
                                                          was.published || created)]
                && outbox == old(outbox) +
                             (if created then [Create(|old(outbox)|, e.video, e.title, e.description)]
                              else if visibility.Public? then [Update(|old(outbox)|, e.video, e.title, e.description)]
                              else if was.visibility.Public? && was.published then [Delete(|old(outbox)|, e.video)]
                              else [])
    {
      if e.video !in videos || videos[e.video].owner != e.caller { return false; }
      var wasPublic := videos[e.video].visibility.Public?;
      var visibility := if e.visibility.Some? then e.visibility.value else videos[e.video].visibility;
      videos := videos[e.video := videos[e.video].(title := e.title, description := e.description,
                                                   visibility := visibility)];
      var nowPublic := visibility.Public?;
      if !wasPublic && nowPublic {
        videos := videos[e.video := videos[e.video].(published := true)];
        outbox := outbox + [Create(|outbox|, e.video, videos[e.video].title, videos[e.video].description)];
      } else if wasPublic && nowPublic {
        outbox := outbox + [Update(|outbox|, e.video, videos[e.video].title, videos[e.video].description)];
      } else if wasPublic && !nowPublic {
        if videos[e.video].published { outbox := outbox + [Delete(|outbox|, e.video)]; }
      }
      ok := true;
    }
  }

  class FollowerNode {
    var seen: set<ActivityId>
    var catalogue: map<VideoId, Entry>
    ghost var waiting: set<ActivityId>
    ghost var handled: seq<Activity>

    ghost function State(): Follower
      reads this
    {
      Follower(seen, waiting, handled, catalogue)
    }

    constructor ()
      ensures State() == Follower({}, {}, [], map[])
    {
      seen, catalogue := {}, map[];
      waiting, handled := {}, [];
    }

    /** process_inbox; the handling of a new activity is left to a task of its own. */
    method ProcessInbox(a: Activity) returns (stored: bool)
      modifies this
      ensures State() == Receive(old(State()), a)
      ensures stored <==> a.id !in old(seen)
      ensures seen == old(seen) + {a.id} && catalogue == old(catalogue) && handled == old(handled)
      ensures waiting == old(waiting) + if stored then {a.id} else {}
    {
      if a.id in seen { return false; }
      seen := seen + {a.id};
      waiting := waiting + {a.id};
      stored := true;
    }

    /** That task, when it does not fail: handle_inbound_activity for one stored activity. */
    method HandleInbound(a: Activity)
      modifies this
      ensures State() == Finish(old(State()), a)
      ensures seen == old(seen) && handled == old(handled) + [a]
      ensures match a
              case Create(_, uri, title, text) => catalogue == old(catalogue)[uri := Entry(title, text, false)]
              case Update(_, uri, title, text) => catalogue == old(catalogue)[uri := Entry(title, text, false)]
              case Delete(_, uri) =>
                if uri in old(catalogue)
                then catalogue == old(catalogue)[uri := old(catalogue)[uri].(deleted := true)]
                else catalogue == old(catalogue)
    {
      if a.Delete? {
        if a.uri in catalogue { catalogue := catalogue[a.uri := catalogue[a.uri].(deleted := true)]; }
      } else {
        catalogue := catalogue[a.uri := Entry(a.title, a.description, false)];
      }
      waiting, handled := waiting - {a.id}, handled + [a];
    }
  }
}
