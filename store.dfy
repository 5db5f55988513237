/** The annotation store of the canvas component: the updaters its handlers
    pass to the React state setters, the transitions those handlers perform on
    the whole state, and which controls the state offers. */
module Store {
  import opened CanvasTypes

  // ----- Updaters on a single drawing -----

  /** The click updater: the new point goes after every earlier one. */
  function WithPoint(d: Drawing, p: Point): (r: Drawing)
    ensures |r.points| == |d.points| + 1
    ensures r.points[..|d.points|] == d.points && r.points[|d.points|] == p
    ensures r.color == d.color
  {
    d.(points := d.points + [p])
  }

  /** The commit updater for the next current drawing: the points go, the colour stays. */
  function WithoutPoints(d: Drawing): (r: Drawing)
    ensures r.points == [] && r.color == d.color
  {
    d.(points := [])
  }

  /** The colour-input updater: the colour changes, the points stay. */
  function WithColor(d: Drawing, c: Color): (r: Drawing)
    ensures r.points == d.points && r.color == c
  {
    d.(color := c)
  }

  // ----- The component state and its transitions -----

  /** The three pieces of component state: finalized drawings, the drawing in
      progress, and the loaded image if any. */
  datatype CanvasState = CanvasState(drawings: seq<Drawing>, current: Drawing, image: Option<Image>)

  /** The state on mount, before the default image has decoded. */
  const Initial: CanvasState := CanvasState([], Blank, None)

  /** A click on the canvas: the point is appended to the current drawing. */
  function AddPoint(s: CanvasState, p: Point): (r: CanvasState)
    ensures r.drawings == s.drawings && r.image == s.image
    ensures |r.current.points| == |s.current.points| + 1
    ensures r.current.points[..|s.current.points|] == s.current.points
    ensures r.current.points[|s.current.points|] == p
    ensures r.current.color == s.current.color
  {
    s.(current := WithPoint(s.current, p))
  }

  /** "Add Drawing": a current drawing with at least one point becomes the
      newest finalized drawing and the next one starts empty in the same
      colour; with no points nothing happens. */
  function Commit(s: CanvasState): (r: CanvasState)
    ensures s.current.points == [] ==> r == s
    ensures s.current.points != [] ==>
      && |r.drawings| == |s.drawings| + 1
      && r.drawings[..|s.drawings|] == s.drawings
      && r.drawings[|s.drawings|] == s.current
      && r.current.points == []
      && r.current.color == s.current.color
    ensures r.image == s.image
  {
    if |s.current.points| > 0 then
      s.(drawings := s.drawings + [s.current], current := WithoutPoints(s.current))
    else
      s
  }

  /** The colour input: only the current drawing's colour changes. */
  function SetColor(s: CanvasState, c: Color): (r: CanvasState)
    ensures r.drawings == s.drawings && r.image == s.image
    ensures r.current.points == s.current.points && r.current.color == c
  {
    s.(current := WithColor(s.current, c))
  }

  /** "Reset Drawing": every annotation goes and the colour returns to the
      default; the image stays. */
  function Reset(s: CanvasState): (r: CanvasState)
    ensures r.drawings == [] && r.current.points == [] && r.current.color == DefaultColor
    ensures r.image == s.image
  {
    CanvasState([], Blank, s.image)
  }

  /** The continuation of an upload once the file has decoded: the image is
      installed, then the canvas is reset. */
  function InstallImage(s: CanvasState, img: Image): (r: CanvasState)
    ensures r.image == Some(img)
    ensures r.drawings == [] && r.current == Blank
  {
    Reset(s.(image := Some(img)))
  }

  /** The continuation of the default image load on mount: the image is
      installed and nothing else changes. */
  function ShowImage(s: CanvasState, img: Image): (r: CanvasState)
    ensures r.image == Some(img)
    ensures r.drawings == s.drawings && r.current == s.current
  {
    s.(image := Some(img))
  }

  /** The events the component reacts to, each handled to completion. */
  datatype Action =
    | CanvasClick(p: Point)
    | AddDrawingClick
    | ColorInput(c: Color)
    | ResetClick
    | UploadDecoded(img: Image)
    | DefaultDecoded(img: Image)

  /** Each event handled by its handler: the canvas onClick, the "Add
      Drawing" button, the colour input, the "Reset Drawing" button and the
      two image onload continuations. Only the onloads touch the image. */
  function Step(s: CanvasState, a: Action): (r: CanvasState)
    ensures !a.UploadDecoded? && !a.DefaultDecoded? ==> r.image == s.image
    ensures a.UploadDecoded? || a.DefaultDecoded? ==> r.image == Some(a.img)
  {
    match a
    case CanvasClick(p) => AddPoint(s, p)
    case AddDrawingClick => Commit(s)
    case ColorInput(c) => SetColor(s, c)
    case ResetClick => Reset(s)
    case UploadDecoded(img) => InstallImage(s, img)
    case DefaultDecoded(img) => ShowImage(s, img)
  }

  /** An image onload continuation: the only events that set the image. */
  predicate IsLoad(a: Action)
  {
    a.UploadDecoded? || a.DefaultDecoded?
  }

  /** The state after handling `actions` in order. The image changes only
      through an image onload, and then it is the last image loaded
      (RunLastLoadWins). */
  function Run(s: CanvasState, actions: seq<Action>): (r: CanvasState)
    ensures (forall i :: 0 <= i < |actions| ==> !IsLoad(actions[i])) ==> r.image == s.image
    ensures r.image != s.image ==> exists i :: 0 <= i < |actions| && IsLoad(actions[i]) && r.image == Some(actions[i].img)
    decreases |actions|
  {
    if actions == [] then s else Run(Step(s, actions[0]), actions[1..])
  }

  /** One canvas click per point, in order. */
  function Clicks(ps: seq<Point>): seq<Action>
  {
    seq(|ps|, i requires 0 <= i < |ps| => CanvasClick(ps[i]))
  }

  // ----- Invariant -----

  /** Every finalized drawing has at least one point: commit refuses an
      empty current drawing and nothing else adds to `drawings`. */
  predicate Valid(s: CanvasState)
  {
    forall i :: 0 <= i < |s.drawings| ==> s.drawings[i].points != []
  }

  // ----- Which controls are shown -----

  /** "Add Drawing", the colour input, "Export Image" and the reset control
      exist only while an image is loaded. */
  predicate ShowsImageControls(s: CanvasState)
  {
    s.image.Some?
  }

  /** "Reset Drawing" is shown when there is something to reset. */
  function ShowsResetButton(s: CanvasState): (shown: bool)
    ensures shown ==> ShowsImageControls(s)
  {
    ShowsImageControls(s) && (|s.drawings| > 0 || |s.current.points| > 0)
  }

  /** Whether the UI offers an event in a state: the canvas and the upload
      button are always there; "Add Drawing" and the colour input need an
      image; "Reset Drawing" needs something to reset. */
  predicate Offered(s: CanvasState, a: Action)
  {
    match a
    case CanvasClick(_) => true
    case AddDrawingClick => ShowsImageControls(s)
    case ColorInput(_) => ShowsImageControls(s)
    case ResetClick => ShowsResetButton(s)
    case UploadDecoded(_) => true
    case DefaultDecoded(_) => true
  }

  // ----- Properties -----

  lemma InitialIsValid()
    ensures Valid(Initial)
    ensures !ShowsImageControls(Initial)
  {
  }

  lemma StepPreservesValid(s: CanvasState, a: Action)
    requires Valid(s)
    ensures Valid(Step(s, a))
  {
  }

  lemma {:induction false} RunPreservesValid(s: CanvasState, actions: seq<Action>)
    requires Valid(s)
    ensures Valid(Run(s, actions))
    decreases |actions|
  {
    if actions != [] {
      StepPreservesValid(s, actions[0]);
      RunPreservesValid(Step(s, actions[0]), actions[1..]);
    }
  }

  /** After k clicks the current drawing holds the clicked points after its
      earlier ones, in click order; nothing else changes. */
  lemma {:induction false} ClicksAppendInOrder(s: CanvasState, ps: seq<Point>)
    ensures Run(s, Clicks(ps)) == s.(current := Drawing(s.current.points + ps, s.current.color))
    decreases |ps|
  {
    if ps != [] {
      assert Clicks(ps)[0] == CanvasClick(ps[0]);
      assert Clicks(ps)[1..] == Clicks(ps[1..]);
      var s1 := Step(s, CanvasClick(ps[0]));
      ClicksAppendInOrder(s1, ps[1..]);
      assert s1.current.points + ps[1..] == s.current.points + ps;
    }
  }

  /** When several images load, the last onload to run decides the image:
      no later event touches it. */
  lemma {:induction false} RunLastLoadWins(s: CanvasState, actions: seq<Action>, i: nat)
    requires i < |actions| && IsLoad(actions[i])
    requires forall j :: i < j < |actions| ==> !IsLoad(actions[j])
    ensures Run(s, actions).image == Some(actions[i].img)
    decreases |actions|
  {
    var rest := actions[1..];
    if i == 0 {
      forall k | 0 <= k < |rest|
        ensures !IsLoad(rest[k])
      {
        assert rest[k] == actions[k + 1];
      }
    } else {
      forall k | i - 1 < k < |rest|
        ensures !IsLoad(rest[k])
      {
        assert rest[k] == actions[k + 1];
      }
      RunLastLoadWins(Step(s, actions[0]), rest, i - 1);
    }
  }

  /** Pressing "Add Drawing" a second time changes nothing. */
  lemma CommitTwiceIsCommitOnce(s: CanvasState)
    ensures Commit(Commit(s)) == Commit(s)
  {
  }

  /** A reset always hides its own button and leaves the image controls as they were. */
  lemma ResetHidesResetButton(s: CanvasState)
    ensures !ShowsResetButton(Reset(s))
    ensures ShowsImageControls(Reset(s)) == ShowsImageControls(s)
  {
  }

  /** After an upload the image controls are there and the reset control is not. */
  lemma UploadShowsImageControls(s: CanvasState, img: Image)
    ensures ShowsImageControls(InstallImage(s, img))
    ensures !ShowsResetButton(InstallImage(s, img))
  {
  }

  /** With an image loaded, a click always brings up the reset control. */
  lemma ClickOffersReset(s: CanvasState, p: Point)
    requires ShowsImageControls(s)
    ensures ShowsResetButton(AddPoint(s, p))
  {
  }

  /** An offered reset always discards something: a finalized drawing or a
      point of the current drawing. */
  lemma OfferedResetChangesState(s: CanvasState)
    requires Offered(s, ResetClick)
    ensures Reset(s) != s
    ensures Reset(s).drawings != s.drawings || Reset(s).current.points != s.current.points
  {
  }

  /** Once the image controls are shown, no sequence of events hides them. */
  lemma ImageControlsStayShown(s: CanvasState, actions: seq<Action>)
    requires ShowsImageControls(s)
    ensures ShowsImageControls(Run(s, actions))
  {
  }
}
