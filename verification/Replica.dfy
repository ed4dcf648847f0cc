// Federation of video entries: an origin and a follower.

module Replica {

  // The origin publishes Create, Update and Delete. The follower deduplicates by activity id and handles each stored
  // activity in a task of its own. When is the follower's catalogue the list of the origin's public videos?

  import opened Common

  type VideoId = nat
  type ActivityId = nat
  type UserId = nat

  datatype Visibility = LocalOnly | Public

  /** A local video; `published` says whether its object URI, which is derived from the id, has been assigned. */
  datatype Video = Video(owner: UserId, title: string, description: string, visibility: Visibility, published: bool)

  /** `uri` is the object URI; object URIs and local video ids correspond one to one. */
  datatype Activity =
    | Create(id: ActivityId, uri: VideoId, title: string, description: string)
    | Update(id: ActivityId, uri: VideoId, title: string, description: string)
    | Delete(id: ActivityId, uri: VideoId)

  datatype Entry = Entry(title: string, description: string, deleted: bool)

  // ---- origin ----

  /** The origin's videos, and every activity it has queued for its follower. */
  datatype Origin = Origin(videos: map<VideoId, Video>, outbox: seq<Activity>)

  datatype Edit = Edit(caller: UserId, video: VideoId, title: string, description: string,
                       visibility: Option<Visibility>)

  function Queue(o: Origin, a: Activity): Origin {
    o.(outbox := o.outbox + [a])
  }

  /** publish_create and publish_update build the object from the stored video, and only when it is public. */
  function Publish(o: Origin, v: VideoId, create: bool): Origin
    requires v in o.videos
  {
    var named := if create then o.(videos := o.videos[v := o.videos[v].(published := true)]) else o;
    var it := named.videos[v];
    if it.visibility != Public then named
    else Queue(named, if create then Create(|o.outbox|, v, it.title, it.description)
                      else Update(|o.outbox|, v, it.title, it.description))
  }

  function PublishDelete(o: Origin, v: VideoId): Origin
    requires v in o.videos
  {
    if o.videos[v].published then Queue(o, Delete(|o.outbox|, v)) else o
  }

  /** update_video: store the edit, then publish what its effect on the visibility calls for. */
  function EditVideo(o: Origin, e: Edit): Origin {
    if e.video !in o.videos || o.videos[e.video].owner != e.caller then o else
    var was := o.videos[e.video];
    var now := was.(title := e.title, description := e.description, visibility := e.visibility.GetOr(was.visibility));
    var q := o.(videos := o.videos[e.video := now]);
    if now.visibility.Public? then Publish(q, e.video, !was.visibility.Public?)
    else if was.visibility.Public? then PublishDelete(q, e.video)
    else q
  }

  // ---- follower ----

  /**
   * Activities stored, those among them whose handling has not taken effect, the activities whose handling has, in
   * that order, and the catalogue. A handling that fails never takes effect.
   */
  datatype Follower = Follower(seen: set<ActivityId>, waiting: set<ActivityId>, handled: seq<Activity>,
                               catalogue: map<VideoId, Entry>)

  /** The upsert of a Create or Update, and the soft delete of a Delete. */
  function Handle(catalogue: map<VideoId, Entry>, a: Activity): map<VideoId, Entry> {
    match a
    case Create(_, uri, title, description) => catalogue[uri := Entry(title, description, false)]
    case Update(_, uri, title, description) => catalogue[uri := Entry(title, description, false)]
    case Delete(_, uri) =>
      if uri in catalogue then catalogue[uri := catalogue[uri].(deleted := true)] else catalogue
  }

  /** process_inbox: an activity whose id was stored before is acknowledged and ignored. */
  function Receive(f: Follower, a: Activity): Follower {
    if a.id in f.seen then f else f.(seen := f.seen + {a.id}, waiting := f.waiting + {a.id})
  }

  /** The task that process_inbox spawns for a stored activity. */
  function Finish(f: Follower, a: Activity): Follower {
    f.(waiting := f.waiting - {a.id}, handled := f.handled + [a], catalogue := Handle(f.catalogue, a))
  }

  /** What the catalogue endpoint lists. */
  function Available(catalogue: map<VideoId, Entry>): map<VideoId, (string, string)> {
    map v | v in catalogue && !catalogue[v].deleted :: (catalogue[v].title, catalogue[v].description)
  }

  function PublicVideos(videos: map<VideoId, Video>): map<VideoId, (string, string)> {
    map v | v in videos && videos[v].visibility.Public? :: (videos[v].title, videos[v].description)
  }

  // ---- the two together ----

  datatype World = World(origin: Origin, follower: Follower)

  /** Activities are delivered, and their handlings take effect, in any order and at any time; deliveries repeat. */
  datatype Event = Edits(edit: Edit) | Deliver(i: nat) | Takes(i: nat)

  function Apply(w: World, e: Event): World {
    match e
    case Edits(edit) => w.(origin := EditVideo(w.origin, edit))
    case Deliver(i) =>
      if i >= |w.origin.outbox| then w else w.(follower := Receive(w.follower, w.origin.outbox[i]))
    case Takes(i) =>
      if i >= |w.origin.outbox| || w.origin.outbox[i].id !in w.follower.waiting then w
      else w.(follower := Finish(w.follower, w.origin.outbox[i]))
  }

  function Run(w: World, es: seq<Event>): World
    decreases |es|
  {
    if es == [] then w else Apply(Run(w, es[..|es| - 1]), es[|es| - 1])
  }

  /** Every video local and unpublished, nothing queued, and a follower that has seen nothing. */
  predicate Start(w: World) {
    && (forall v :: v in w.origin.videos ==> w.origin.videos[v].visibility.LocalOnly?)
    && w.origin.outbox == [] && w.follower == Follower({}, {}, [], map[])
  }

  function HandleAll(acts: seq<Activity>): map<VideoId, Entry> {
    if acts == [] then map[] else Handle(HandleAll(acts[..|acts| - 1]), acts[|acts| - 1])
  }

  /** What the last activity about a video says of it: nothing after a Delete. */
  function Says(acts: seq<Activity>, v: VideoId): Option<(string, string)> {
    if acts == [] then None
    else
      var a := acts[|acts| - 1];
      if a.uri != v then Says(acts[..|acts| - 1], v)
      else if a.Delete? then None else Some((a.title, a.description))
  }

  /** Handling everything the origin ever queued, once and in order, yields its public videos. */
  ghost predicate OutboxTells(o: Origin) {
    && (forall i :: 0 <= i < |o.outbox| ==> o.outbox[i].id == i)
    && (forall v :: v in o.videos && o.videos[v].visibility.Public? ==> o.videos[v].published)
    && Available(HandleAll(o.outbox)) == PublicVideos(o.videos)
  }

  /** Each handled activity was queued and stored, and has been handled once. */
  ghost predicate InStep(w: World) {
    && OutboxTells(w.origin)
    && w.follower.waiting <= w.follower.seen
    && (forall k :: 0 <= k < |w.follower.handled| ==> IsHandled(w, w.follower.handled[k]))
    && (forall j, k :: 0 <= j < k < |w.follower.handled| ==> w.follower.handled[j].id != w.follower.handled[k].id)
    && w.follower.catalogue == HandleAll(w.follower.handled)
  }

  predicate IsHandled(w: World, a: Activity) {
    a.id in w.follower.seen - w.follower.waiting && a.id < |w.origin.outbox| && a == w.origin.outbox[a.id]
  }

  function Listed(catalogue: map<VideoId, Entry>, v: VideoId): Option<(string, string)> {
    if v in catalogue && !catalogue[v].deleted then Some((catalogue[v].title, catalogue[v].description)) else None
  }

  function Shown(videos: map<VideoId, Video>, v: VideoId): Option<(string, string)> {
    if v in videos && videos[v].visibility.Public? then Some((videos[v].title, videos[v].description)) else None
  }

  lemma ListedIsShown(catalogue: map<VideoId, Entry>, videos: map<VideoId, Video>)
    ensures Available(catalogue) == PublicVideos(videos) <==>
            forall v: VideoId :: Listed(catalogue, v) == Shown(videos, v)
  {
    forall v: VideoId
      ensures Listed(catalogue, v) == Lookup(Available(catalogue), v)
              && Shown(videos, v) == Lookup(PublicVideos(videos), v)
    {
    }
    if forall v: VideoId :: Listed(catalogue, v) == Shown(videos, v) {
      forall v: VideoId ensures Lookup(Available(catalogue), v) == Lookup(PublicVideos(videos), v) {
        assert Listed(catalogue, v) == Shown(videos, v);
      }
      assert forall v: VideoId :: v in Available(catalogue) <==> Lookup(Available(catalogue), v).Some?;
      assert forall v: VideoId :: v in PublicVideos(videos) <==> Lookup(PublicVideos(videos), v).Some?;
      assert forall v: VideoId :: v in Available(catalogue) ==>
          Lookup(Available(catalogue), v) == Some(Available(catalogue)[v]);
    }
  }

  predicate Effective(o: Origin, e: Edit) {
    e.video in o.videos && o.videos[e.video].owner == e.caller
  }

  /** An edit queues at most one activity, and none that touches another video. */
  lemma EditQueues(o: Origin, e: Edit)
    requires Effective(o, e)
    requires o.videos[e.video].visibility.Public? ==> o.videos[e.video].published
    ensures var (q, before) := (EditVideo(o, e), HandleAll(o.outbox));
      && o.outbox <= q.outbox && |q.outbox| <= |o.outbox| + 1
      && (|q.outbox| > |o.outbox| ==> q.outbox[|o.outbox|].id == |o.outbox|)
      && forall v: VideoId :: v != e.video ==>
           Listed(HandleAll(q.outbox), v) == Listed(before, v) && Shown(q.videos, v) == Shown(o.videos, v)
    ensures var q := EditVideo(o, e);
      Listed(HandleAll(o.outbox), e.video) == Shown(o.videos, e.video) ==>
        Listed(HandleAll(q.outbox), e.video) == Shown(q.videos, e.video)
  {
    var q := EditVideo(o, e);
    if |q.outbox| > |o.outbox| {
      assert q.outbox == o.outbox + [q.outbox[|o.outbox|]];
    }
  }

  lemma EditTells(o: Origin, e: Edit)
    requires OutboxTells(o)
    ensures OutboxTells(EditVideo(o, e))
    ensures o.outbox <= EditVideo(o, e).outbox
  {
    if Effective(o, e) {
      var q := EditVideo(o, e);
      ListedIsShown(HandleAll(o.outbox), o.videos);
      EditQueues(o, e);
      assert forall v :: v in q.videos && q.videos[v].visibility.Public? ==> q.videos[v].published;
      hide EditVideo, HandleAll, Listed, Shown, Available, PublicVideos, Effective;
      ListedIsShown(HandleAll(q.outbox), q.videos);
      assert forall i :: 0 <= i < |o.outbox| ==> q.outbox[i] == o.outbox[i];
    }
  }

  /** The visibility that an edit asks for: the one it names, or else the one the video has. */
  function Asked(o: Origin, e: Edit): Visibility
    requires e.video in o.videos
  {
    match e.visibility
    case Some(v) => v
    case None => o.videos[e.video].visibility
  }

  /**
   * An edit by the owner is stored as it was asked for, and told as it was asked for: from then on a follower that
   * handles everything lists the video with exactly this title and description if the edit makes or leaves it public,
   * and no longer if it does not. An edit by anybody else changes nothing.
   */
  lemma EditIsTold(o: Origin, e: Edit)
    requires OutboxTells(o)
    ensures var q := EditVideo(o, e);
      if !Effective(o, e) then q == o else
      && e.video in q.videos && q.videos.Keys == o.videos.Keys
      && q.videos[e.video].title == e.title && q.videos[e.video].description == e.description
      && q.videos[e.video].visibility == Asked(o, e) && q.videos[e.video].owner == o.videos[e.video].owner
      && (forall v :: v in o.videos && v != e.video ==> q.videos[v] == o.videos[v])
      && Lookup(Available(HandleAll(q.outbox)), e.video) ==
         if Asked(o, e).Public? then Some((e.title, e.description)) else None
  {
    if Effective(o, e) {
      EditTells(o, e);
      var q := EditVideo(o, e);
      assert Shown(q.videos, e.video) == if Asked(o, e).Public? then Some((e.title, e.description)) else None;
      hide EditVideo, HandleAll;
      ShownIsLookup(q.videos, e.video);
    }
  }

  lemma ShownIsLookup(videos: map<VideoId, Video>, v: VideoId)
    ensures Lookup(PublicVideos(videos), v) == Shown(videos, v)
  {
  }

  lemma TakesKeepsStep(w: World, i: nat)
    requires InStep(w) && i < |w.origin.outbox| && i in w.follower.waiting
    ensures InStep(Apply(w, Takes(i)))
  {
    var a, handled := w.origin.outbox[i], w.follower.handled;
    assert (handled + [a])[..|handled|] == handled;
    var q := Apply(w, Takes(i));
    assert forall k :: 0 <= k < |handled| ==> q.follower.handled[k] == handled[k] && IsHandled(w, handled[k]);
    hide Handle, OutboxTells;
  }

  lemma ApplyKeepsStep(w: World, e: Event)
    requires InStep(w)
    ensures InStep(Apply(w, e)) && w.follower.seen <= Apply(w, e).follower.seen
    ensures w.origin.outbox <= Apply(w, e).origin.outbox
  {
    hide Handle, HandleAll, EditVideo;
    match e
    case Edits(edit) =>
      EditTells(w.origin, edit);
      hide OutboxTells;
    case Deliver(i) =>
      hide OutboxTells;
    case Takes(i) =>
      if i < |w.origin.outbox| && i in w.follower.waiting { TakesKeepsStep(w, i); }
  }

  lemma {:induction false} RunKeepsStep(w: World, es: seq<Event>)
    requires Start(w)
    ensures InStep(Run(w, es))
    decreases |es|
  {
    if es == [] {
      assert Available(map[]) == PublicVideos(w.origin.videos);
    } else {
      RunKeepsStep(w, es[..|es| - 1]);
      ApplyKeepsStep(Run(w, es[..|es| - 1]), es[|es| - 1]);
    }
  }

  /** What is listed for a video is what the last activity handled about it says. */
  lemma {:induction false} ListedIsSaid(acts: seq<Activity>, v: VideoId)
    ensures Listed(HandleAll(acts), v) == Says(acts, v)
  {
    if acts != [] { ListedIsSaid(acts[..|acts| - 1], v); }
  }

  lemma SaidIsShown(acts: seq<Activity>, videos: map<VideoId, Video>)
    ensures Available(HandleAll(acts)) == PublicVideos(videos) <==>
            forall v: VideoId :: Says(acts, v) == Shown(videos, v)
  {
    ListedIsShown(HandleAll(acts), videos);
    forall v: VideoId ensures Listed(HandleAll(acts), v) == Says(acts, v) {
      ListedIsSaid(acts, v);
    }
    hide *;
  }

  /**
   * Whatever was edited, delivered, repeated and handled in whatever order, and whichever handlings never take effect:
   * at every moment the follower lists exactly the public videos of the origin, with their titles and descriptions, if
   * and only if for every video the last activity handled says what the last activity queued says.
   */
  lemma FollowerConverges(w: World, es: seq<Event>)
    requires Start(w)
    ensures var end := Run(w, es);
      Available(end.follower.catalogue) == PublicVideos(end.origin.videos) <==>
      forall v: VideoId :: Says(end.follower.handled, v) == Says(end.origin.outbox, v)
  {
    RunKeepsStep(w, es);
    var end := Run(w, es);
    hide Run, Available, PublicVideos, Says, Shown, HandleAll;
    SaidIsShown(end.origin.outbox, end.origin.videos);
    SaidIsShown(end.follower.handled, end.origin.videos);
  }

  /** Activity i is the last about its video. */
  predicate IsLast(acts: seq<Activity>, i: nat) {
    i < |acts| && forall j :: i < j < |acts| ==> acts[j].uri != acts[i].uri
  }

  lemma {:induction false} LastSays(acts: seq<Activity>, i: nat)
    requires IsLast(acts, i)
    ensures Says(acts, acts[i].uri) == if acts[i].Delete? then None else Some((acts[i].title, acts[i].description))
  {
    if i < |acts| - 1 { LastSays(acts[..|acts| - 1], i); }
  }

  lemma {:induction false} FindLast(acts: seq<Activity>, v: VideoId) returns (i: Option<nat>)
    ensures i.Some? ==> IsLast(acts, i.value) && acts[i.value].uri == v
    ensures i.None? ==> Says(acts, v) == None && forall j :: 0 <= j < |acts| ==> acts[j].uri != v
  {
    if acts == [] {
      i := None;
    } else if acts[|acts| - 1].uri == v {
      i := Some(|acts| - 1);
    } else {
      i := FindLast(acts[..|acts| - 1], v);
    }
  }

  /** The last activity about each video has been handled, and those about one video in the order they were queued. */
  ghost predicate CaughtUp(outbox: seq<Activity>, handled: seq<Activity>) {
    && (forall i: nat :: IsLast(outbox, i) ==> outbox[i] in handled)
    && (forall j, k :: 0 <= j < k < |handled| && handled[j].uri == handled[k].uri ==> handled[j].id < handled[k].id)
  }

  /** In particular the follower has converged once it has caught up. */
  lemma CaughtUpConverges(w: World, es: seq<Event>)
    requires Start(w) && CaughtUp(Run(w, es).origin.outbox, Run(w, es).follower.handled)
    ensures Available(Run(w, es).follower.catalogue) == PublicVideos(Run(w, es).origin.videos)
  {
    RunKeepsStep(w, es);
    FollowerConverges(w, es);
    var end := Run(w, es);
    hide Run, Available, PublicVideos, HandleAll;
    forall v: VideoId ensures Says(end.follower.handled, v) == Says(end.origin.outbox, v) {
      CaughtUpSays(end, v);
    }
  }

  lemma LaterWasQueuedLater(w: World, at: nat, k: nat)
    requires InStep(w) && CaughtUp(w.origin.outbox, w.follower.handled)
    requires at < |w.follower.handled| && k < |w.follower.handled|
    requires w.follower.handled[at].uri == w.follower.handled[k].uri
    ensures at < k ==> w.follower.handled[at].id < w.follower.handled[k].id
    ensures w.follower.handled[k].id < |w.origin.outbox|
    ensures w.follower.handled[k] == w.origin.outbox[w.follower.handled[k].id]
  {
    assert IsHandled(w, w.follower.handled[k]);
    hide OutboxTells, HandleAll;
  }

  /** The last activity queued about a video is then also the last one handled. */
  lemma LastIsLast(w: World, i: nat, k: nat)
    requires InStep(w) && CaughtUp(w.origin.outbox, w.follower.handled)
    requires IsLast(w.origin.outbox, i) && IsLast(w.follower.handled, k)
    requires w.origin.outbox[i].uri == w.follower.handled[k].uri
    ensures w.follower.handled[k] == w.origin.outbox[i]
  {
    var outbox, handled := w.origin.outbox, w.follower.handled;
    assert outbox[i] in handled && outbox[i].id == i;
    var at: nat :| at < |handled| && handled[at] == outbox[i];
    hide InStep, CaughtUp;
    LaterWasQueuedLater(w, at, k);
  }

  lemma CaughtUpSays(w: World, v: VideoId)
    requires InStep(w) && CaughtUp(w.origin.outbox, w.follower.handled)
    ensures Says(w.follower.handled, v) == Says(w.origin.outbox, v)
  {
    var outbox, handled := w.origin.outbox, w.follower.handled;
    var i := FindLast(outbox, v);
    var k := FindLast(handled, v);
    assert i.Some? ==> outbox[i.value] in handled;
    assert k.Some? ==> IsHandled(w, handled[k.value]);
    hide OutboxTells, Says;
    if i.Some? && k.Some? {
      LastIsLast(w, i.value, k.value);
      LastSays(outbox, i.value);
      LastSays(handled, k.value);
    }
  }

  /** In every run, an activity that is delivered and whose handling takes effect is the next one handled. */
  lemma DeliveredTakesEffect(w: World, es: seq<Event>, i: nat)
    requires Start(w) && i < |Run(w, es).origin.outbox| && i !in Run(w, es).follower.seen
    ensures var (q, r) := (Run(w, es), Apply(Apply(Run(w, es), Deliver(i)), Takes(i)));
      && r.origin == q.origin && r.follower.seen == q.follower.seen + {i}
      && r.follower.handled == q.follower.handled + [q.origin.outbox[i]]
  {
    RunKeepsStep(w, es);
    hide EditVideo, Handle, HandleAll, Available, PublicVideos;
  }

  /** Every activity takes effect at most once, in every run. */
  lemma HandledOnce(w: World, es: seq<Event>, j: nat, k: nat)
    requires Start(w) && j < k < |Run(w, es).follower.handled|
    ensures Run(w, es).follower.handled[j].id != Run(w, es).follower.handled[k].id
  {
    RunKeepsStep(w, es);
  }

  lemma {:induction false} SeenStays(w: World, es: seq<Event>, later: seq<Event>)
    requires Start(w)
    ensures Run(w, es).follower.seen <= Run(w, es + later).follower.seen
    ensures Run(w, es).origin.outbox <= Run(w, es + later).origin.outbox
    decreases |later|
  {
    if later == [] {
      assert es + later == es;
    } else {
      var n := |later| - 1;
      SeenStays(w, es, later[..n]);
      assert (es + later)[..|es + later| - 1] == es + later[..n];
      RunKeepsStep(w, es + later[..n]);
      ApplyKeepsStep(Run(w, es + later[..n]), later[n]);
    }
  }

  /** An activity that was delivered once changes nothing when it is delivered again, at any later time. */
  lemma DuplicateIsHarmless(w: World, es: seq<Event>, i: nat, later: seq<Event>)
    requires Start(w) && i < |Run(w, es).origin.outbox|
    ensures var q := Run(w, es + [Deliver(i)] + later); Apply(q, Deliver(i)) == q
  {
    var first := es + [Deliver(i)];
    assert first[..|first| - 1] == es;
    RunKeepsStep(w, es);
    RunKeepsStep(w, first + later);
    SeenStays(w, first, later);
    hide EditVideo, HandleAll, Available, PublicVideos;
    assert i in Run(w, first).follower.seen;
  }

  /** A video published once, whose Create is delivered and never handled, is never listed, whatever is delivered. */
  lemma {:induction false} LostCreateStaysAway(w: World, e: Edit, later: seq<Event>)
    requires Start(w) && Effective(w.origin, e) && e.visibility == Some(Public)
    requires forall i :: 0 <= i < |later| ==> later[i].Deliver?
    ensures var end := Run(w, [Edits(e)] + later);
      e.video in PublicVideos(end.origin.videos) && end.follower.catalogue == map[]
    ensures Run(w, [Edits(e)] + later).origin == EditVideo(w.origin, e)
    decreases |later|
  {
    var first := [Edits(e)];
    if later == [] {
      assert first + later == first && first[..0] == [];
    } else {
      var n := |later| - 1;
      LostCreateStaysAway(w, e, later[..n]);
      assert (first + later)[..|first + later| - 1] == first + later[..n];
      hide EditVideo, PublicVideos;
    }
  }

  /** Publishing a video and renaming it, with the two handlings the other way round. */
  function Overtaking(e: Edit, f: Edit): seq<Event> {
    [Edits(e), Edits(f), Deliver(0), Deliver(1), Takes(1), Takes(0)]
  }

  lemma RunOneMore(w: World, es: seq<Event>, n: nat)
    requires n < |es|
    ensures Run(w, es[..n + 1]) == Apply(Run(w, es[..n]), es[n])
  {
    assert es[..n + 1][..n] == es[..n];
  }

  /** Everything was delivered and handled, and the follower keeps the old title. */
  lemma OvertakenUpdate(w: World, e: Edit, f: Edit)
    requires Start(w) && Effective(w.origin, e) && e.visibility == Some(Public)
    requires f.caller == e.caller && f.video == e.video && f.visibility == Some(Public) && f.title != e.title
    ensures var end := Run(w, Overtaking(e, f));
      && |end.origin.outbox| == |end.follower.handled| == 2 && end.follower.waiting == {}
      && Available(end.follower.catalogue) != PublicVideos(end.origin.videos)
  {
    var es := Overtaking(e, f);
    var a, b := Create(0, e.video, e.title, e.description), Update(1, f.video, f.title, f.description);
    TwoEdits(w, e, f, a, b);
    TakenInReverse(Apply(Apply(w, Edits(e)), Edits(f)), a, b);
    RunSix(w, es);
    LastSays([b, a], 1);
    LastSays([a, b], 1);
    hide Run, Apply, Says, Available, PublicVideos;
    FollowerConverges(w, es);
  }

  lemma RunSix(w: World, es: seq<Event>)
    requires |es| == 6
    ensures Run(w, es) == Apply(Apply(Apply(Apply(Apply(Apply(w, es[0]), es[1]), es[2]), es[3]), es[4]), es[5])
  {
    assert Run(w, es[..0]) == w && es[..6] == es;
    hide Run, Apply;
    RunOneMore(w, es, 0);
    RunOneMore(w, es, 1);
    RunOneMore(w, es, 2);
    RunOneMore(w, es, 3);
    RunOneMore(w, es, 4);
    RunOneMore(w, es, 5);
  }

  lemma TwoEdits(w: World, e: Edit, f: Edit, a: Activity, b: Activity)
    requires Start(w) && Effective(w.origin, e) && e.visibility == Some(Public)
    requires f.caller == e.caller && f.video == e.video && f.visibility == Some(Public)
    requires a == Create(0, e.video, e.title, e.description) && b == Update(1, f.video, f.title, f.description)
    ensures Apply(Apply(w, Edits(e)), Edits(f)).origin.outbox == [a, b]
    ensures Apply(Apply(w, Edits(e)), Edits(f)).follower == w.follower
  {
    var o := EditVideo(w.origin, e);
    assert o.outbox == [a];
    assert EditVideo(o, f).outbox == [a, b];
  }

  lemma TakenInReverse(w: World, a: Activity, b: Activity)
    requires w.origin.outbox == [a, b] && a.id == 0 && b.id == 1 && w.follower == Follower({}, {}, [], map[])
    ensures var end := Apply(Apply(Apply(Apply(w, Deliver(0)), Deliver(1)), Takes(1)), Takes(0));
      end.origin == w.origin && end.follower.handled == [b, a] && end.follower.waiting == {}
  {
    hide Handle;
  }
}
