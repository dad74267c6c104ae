/**
 * The story tray and full-screen story viewer of StoryList.jsx: the tray holds the
 * feed of story groups; the viewer holds the selected group and the index of the
 * story shown. Tapping a group opens it at its first story, tapping the story
 * advances, and advancing past the last story closes the viewer.
 */
module Stories {
  import opened Optional
  import opened Text
  import opened Entities

  datatype Story = Story(dbId: string, media: string, kind: MediaKind)

  /** One tray entry: a user and that user's current stories, in order. */
  datatype StoryGroup = StoryGroup(owner: Ref, stories: seq<Story>)

  /** The viewer state: `selectedStoryUser` and `currentStoryIndex`. */
  datatype Viewer = Viewer(selected: Option<StoryGroup>, index: nat)

  const Closed: Viewer := Viewer(None, 0)

  /** handleStoryClick. */
  function Open(g: StoryGroup): Viewer {
    Viewer(Some(g), 0)
  }

  /** nextStory: advance within the group, or close after its last story. */
  function Next(v: Viewer): Viewer {
    match v.selected
    case None => v
    case Some(g) => if v.index < |g.stories| - 1 then Viewer(v.selected, v.index + 1) else Closed
  }

  /** The three things a user can do to the viewer. */
  datatype Event = TapGroup(group: StoryGroup) | TapOutside | TapStory

  function Step(v: Viewer, e: Event): Viewer {
    match e
    case TapGroup(g) => Open(g)
    case TapOutside => Closed
    case TapStory => Next(v)
  }

  function Run(v: Viewer, events: seq<Event>): Viewer
    decreases |events|
  {
    if events == [] then v else Run(Step(v, events[0]), events[1..])
  }

  /** `n` taps on the story. */
  function Advance(v: Viewer, n: nat): Viewer
    decreases n
  {
    if n == 0 then v else Advance(Next(v), n - 1)
  }

  /**
   * The index points at a story of the open group (line 170 reads
   * `stories[currentStoryIndex]`); a group with no stories can only sit at 0;
   * a closed viewer is at 0.
   */
  ghost predicate InBounds(v: Viewer) {
    match v.selected
    case None => v.index == 0
    case Some(g) => v.index == 0 || v.index < |g.stories|
  }

  /** nextStory never wraps: it moves exactly one story on in the same group, or closes. */
  lemma NextAdvancesOrCloses(v: Viewer)
    ensures v.selected.None? ==> Next(v) == v
    ensures v.selected.Some? && v.index + 1 < |v.selected.value.stories| ==>
              Next(v).selected == v.selected && Next(v).index == v.index + 1
    ensures v.selected.Some? && v.index + 1 >= |v.selected.value.stories| ==> Next(v) == Closed
    ensures Next(v).selected.Some? ==> Next(v).selected == v.selected && Next(v).index == v.index + 1
  {
  }

  lemma StepKeepsInBounds(v: Viewer, e: Event)
    requires InBounds(v)
    ensures InBounds(Step(v, e))
  {
  }

  /** Every state the viewer reaches from an in-bounds state, by any taps, is in bounds. */
  lemma {:induction false} RunKeepsInBounds(v: Viewer, events: seq<Event>)
    requires InBounds(v)
    ensures InBounds(Run(v, events))
    decreases |events|
  {
    if events != [] {
      StepKeepsInBounds(v, events[0]);
      RunKeepsInBounds(Step(v, events[0]), events[1..]);
    }
  }

  /**
   * Opening a group and tapping k times shows story k, for every k before the
   * last; one more tap after the last story closes the viewer.
   */
  lemma {:induction false} WalkThrough(g: StoryGroup, k: nat)
    requires k < |g.stories|
    ensures Advance(Open(g), k) == Viewer(Some(g), k)
    ensures k == |g.stories| - 1 ==> Advance(Open(g), k + 1) == Closed
  {
    if k > 0 {
      WalkThrough(g, k - 1);
      AdvanceSplit(Open(g), k - 1);
    }
    AdvanceSplit(Open(g), k);
  }

  lemma {:induction false} AdvanceSplit(v: Viewer, n: nat)
    ensures Advance(v, n + 1) == Next(Advance(v, n))
    decreases n
  {
    if n > 0 {
      AdvanceSplit(Next(v), n - 1);
    }
  }

  /** Width, in percent, of progress segment `idx` while story `current` is shown (line 161). */
  function SegmentWidth(idx: nat, current: nat): (w: nat)
    ensures w <= 100
  {
    if idx < current then 100 else if idx == current then 50 else 0
  }

  /** The progress bar: one segment per story of the group. */
  function ProgressBar(n: nat, current: nat): (bar: seq<nat>)
    ensures |bar| == n
    ensures forall i :: 0 <= i < n ==> bar[i] == SegmentWidth(i, current)
  {
    seq(n, i requires 0 <= i < n => SegmentWidth(i, current))
  }

  function Sum(s: seq<nat>): nat {
    if s == [] then 0 else Sum(s[..|s| - 1]) + s[|s| - 1]
  }

  /** Segments fill from the left: full, then the one half-full segment, then empty. */
  lemma ProgressFillsFromLeft(n: nat, current: nat)
    ensures forall i, j :: 0 <= i <= j < n ==> ProgressBar(n, current)[i] >= ProgressBar(n, current)[j]
    ensures current < n ==> ProgressBar(n, current)[current] == 50
    ensures forall i :: 0 <= i < n && i != current ==> ProgressBar(n, current)[i] in {0, 100}
  {
  }

  /** The bar shows `current` whole stories and half of the current one. */
  lemma {:induction false} ProgressTotal(n: nat, current: nat)
    ensures Sum(ProgressBar(n, current)) == if current < n then 100 * current + 50 else 100 * n
  {
    if n > 0 {
      var bar := ProgressBar(n, current);
      assert bar[..n - 1] == ProgressBar(n - 1, current);
      ProgressTotal(n - 1, current);
    }
  }

  /** The body of `POST /stories`. */
  datatype NewStory = NewStory(media: string, kind: MediaKind)

  /** What handleFileSelect sends and whether it then refreshes the tray. */
  datatype UploadOutcome = UploadOutcome(created: Option<NewStory>, refresh: bool)

  /**
   * handleFileSelect: without a file nothing is sent; a failed upload sends no
   * story; otherwise the story is created with the uploaded URL and the kind
   * taken from the MIME type, and the tray is refreshed when that succeeds.
   */
  function UploadStory(file: Option<MediaFile>, upload: Reply<string>, create: Reply<()>): (r: UploadOutcome)
    ensures file.None? ==> r == UploadOutcome(None, false)
    ensures upload.Fail? ==> r.created.None? && !r.refresh
    ensures r.created.Some? <==> file.Some? && upload.Ok?
    ensures r.created.Some? ==> r.created.value == NewStory(upload.data, KindFromMime(file.value.mime))
    ensures r.refresh <==> r.created.Some? && create.Ok?
  {
    match file
    case None => UploadOutcome(None, false)
    case Some(f) =>
      match upload
      case Fail(_) => UploadOutcome(None, false)
      case Ok(url) => UploadOutcome(Some(NewStory(url, KindFromMime(f.mime))), create.Ok?)
  }

  class StoryList {
    var stories: seq<StoryGroup>
    var selectedStoryUser: Option<StoryGroup>
    var currentStoryIndex: nat

    function View(): Viewer
      reads this
    {
      Viewer(selectedStoryUser, currentStoryIndex)
    }

    constructor ()
      ensures stories == [] && View() == Closed
    {
      stories := [];
      selectedStoryUser := None;
      currentStoryIndex := 0;
    }

    /** fetchStories: the feed is replaced on success and kept on failure. */
    method FetchStories(res: Reply<seq<StoryGroup>>)
      modifies this
      ensures stories == (if res.Ok? then res.data else old(stories))
      ensures View() == old(View())
    {
      if res.Ok? {
        stories := res.data;
      }
    }

    method HandleStoryClick(g: StoryGroup)
      modifies this
      ensures View() == Open(g) && stories == old(stories)
    {
      selectedStoryUser := Some(g);
      currentStoryIndex := 0;
    }

    method CloseStory()
      modifies this
      ensures View() == Closed && stories == old(stories)
    {
      selectedStoryUser := None;
      currentStoryIndex := 0;
    }

    method NextStory()
      modifies this
      ensures View() == Next(old(View())) && stories == old(stories)
    {
      if selectedStoryUser.None? {
        return;
      }
      if currentStoryIndex < |selectedStoryUser.value.stories| - 1 {
        currentStoryIndex := currentStoryIndex + 1;
      } else {
        CloseStory();
      }
    }

    /**
     * The story the open viewer shows; none when closed. An open group with no
     * stories also gives none here, where the viewer's render would throw.
     */
    function CurrentStory(): (s: Option<Story>)
      reads this
      ensures InBounds(View()) && selectedStoryUser.Some? && |selectedStoryUser.value.stories| > 0 ==>
                s == Some(selectedStoryUser.value.stories[currentStoryIndex])
      ensures selectedStoryUser.None? ==> s.None?
    {
      match selectedStoryUser
      case None => None
      case Some(g) => if currentStoryIndex < |g.stories| then Some(g.stories[currentStoryIndex]) else None
    }
  }
}
