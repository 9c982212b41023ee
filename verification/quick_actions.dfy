/** The dashboard's quick-action stories: clicking a card opens its story,
    and closing the viewer marks every card with that id as watched. */
module QuickActions {
  import opened Results
  import opened Text

  /** Image references are modelled as their bundle-relative paths. */
  datatype Action = Action(id: string, title: string, icon: string, watched: bool,
                           color: string, slides: seq<string>)

  datatype Board = Board(actions: seq<Action>, activeStory: Option<Action>)

  /** `./<folder>/<i>.png` */
  function SlidePath(folder: string, i: nat): string {
    "./" + folder + "/" + NatToString(i) + ".png"
  }

  /** `getSlides`: paths 1 to `count`, in order; a count below 1 yields none. */
  function GetSlides(folder: string, count: int): (r: seq<string>)
    ensures |r| == if count > 0 then count else 0
    ensures forall i :: 0 <= i < |r| ==> r[i] == SlidePath(folder, i + 1)
  {
    if count <= 0 then [] else seq(count, i requires 0 <= i < count => SlidePath(folder, i + 1))
  }

  /** The number in a slide path can be read back, so the paths of one
      folder are pairwise different. */
  lemma SlidePathInjective(folder: string, i: nat, j: nat)
    requires SlidePath(folder, i) == SlidePath(folder, j)
    ensures i == j
  {
    var p := "./" + folder + "/";
    var a, b := NatToString(i), NatToString(j);
    assert SlidePath(folder, i) == p + a + ".png";
    assert SlidePath(folder, j) == p + b + ".png";
    assert |a| == |b|;
    assert a == SlidePath(folder, i)[|p|..|p| + |a|];
    assert b == SlidePath(folder, j)[|p|..|p| + |b|];
    NatToStringRoundTrip(i);
    NatToStringRoundTrip(j);
  }

  lemma SlidesDistinct(folder: string, count: int)
    ensures forall i, j :: 0 <= i < j < |GetSlides(folder, count)| ==>
      GetSlides(folder, count)[i] != GetSlides(folder, count)[j]
  {
    var r := GetSlides(folder, count);
    forall i, j | 0 <= i < j < |r| ensures r[i] != r[j] {
      if r[i] == r[j] {
        SlidePathInjective(folder, i + 1, j + 1);
      }
    }
  }

  function MakeAction(id: string, title: string, watched: bool, color: string): Action {
    Action(id, title, SlidePath(id, 1), watched, color, GetSlides(id, 5))
  }

  const InitialActions: seq<Action> := [
    MakeAction("add-a-manager-to-your-channel", "Add a manager to your channel", false, "#a97fff"),
    MakeAction("physical-products-guide", "Physical products guide", false, "#5ac8fa"),
    MakeAction("how-to-create-a-referal-offer", "How to create a referral offer", true, "#ffcc00"),
    MakeAction("how-to-create-a-fundraising-goal", "How to create a fundraising goal", false, "#78cbf2")
  ]

  const InitialBoard: Board := Board(InitialActions, None)

  /** Four stories of five slides, each card showing its first slide, and
      only the referral guide starts watched. */
  lemma InitialActionsShape()
    ensures |InitialActions| == 4
    ensures forall k :: 0 <= k < 4 ==> |InitialActions[k].slides| == 5
    ensures forall k :: 0 <= k < 4 ==> InitialActions[k].icon == InitialActions[k].slides[0]
    ensures forall k :: 0 <= k < 4 ==> (InitialActions[k].watched <==> k == 2)
  {
  }

  /** `handleActionClick` */
  function ActionClick(b: Board, a: Action): (c: Board)
    ensures c.actions == b.actions && c.activeStory == Some(a)
  {
    b.(activeStory := Some(a))
  }

  /** The `map` inside `handleCloseViewer`. */
  function MarkWatched(actions: seq<Action>, id: string): (r: seq<Action>)
    ensures |r| == |actions|
    ensures forall i :: 0 <= i < |r| ==>
      r[i] == (if actions[i].id == id then actions[i].(watched := true) else actions[i])
  {
    seq(|actions|, i requires 0 <= i < |actions| =>
      if actions[i].id == id then actions[i].(watched := true) else actions[i])
  }

  /** `handleCloseViewer` */
  function CloseViewer(b: Board): (c: Board)
    ensures c.activeStory.None?
    ensures b.activeStory.None? ==> c.actions == b.actions
    ensures b.activeStory.Some? ==> c.actions == MarkWatched(b.actions, b.activeStory.value.id)
  {
    match b.activeStory
    case None => b
    case Some(a) => Board(MarkWatched(b.actions, a.id), None)
  }

  /** Closing only ever sets flags: nothing becomes unwatched, and every
      field but `watched` stays as it was. */
  lemma CloseOnlyMarks(b: Board)
    ensures |CloseViewer(b).actions| == |b.actions|
    ensures forall i :: 0 <= i < |b.actions| ==>
      && (b.actions[i].watched ==> CloseViewer(b).actions[i].watched)
      && CloseViewer(b).actions[i].(watched := b.actions[i].watched) == b.actions[i]
  {
  }

  /** A card is watched after closing exactly when it was watched before
      or it shares the closed story's id. */
  lemma ClosedStoryWatched(b: Board, a: Action)
    ensures forall i :: 0 <= i < |b.actions| ==>
      (CloseViewer(ActionClick(b, a)).actions[i].watched <==> b.actions[i].watched || b.actions[i].id == a.id)
  {
  }

  /** Marking is idempotent, so watching a story twice is like watching it once. */
  lemma MarkWatchedIdempotent(actions: seq<Action>, id: string)
    ensures MarkWatched(MarkWatched(actions, id), id) == MarkWatched(actions, id)
  {
  }

  lemma WatchTwiceIsWatchOnce(b: Board, a: Action)
    ensures CloseViewer(ActionClick(CloseViewer(ActionClick(b, a)), a)) == CloseViewer(ActionClick(b, a))
  {
    MarkWatchedIdempotent(b.actions, a.id);
  }

  /** A second close with nothing open changes nothing. */
  lemma CloseIdempotent(b: Board)
    ensures CloseViewer(CloseViewer(b)) == CloseViewer(b)
  {
  }
}
