/**
 * The capture screen: the five category names that unlock the Learn-More button
 * and the 5-point award, the disposal guide each of them opens, the display
 * settings per category, the rule that scales a camera frame down to 800×600,
 * the handling of the classification service's reply, and the retake reset.
 *
 * The camera, the canvas, the HTTP call, the user-points write and navigation are
 * outside the model: what they report is a parameter, what they are asked to do is
 * recorded as an effect.
 */
module Capture {
  import opened Wrappers
  import Inference

  // ---------------------------------------------------------------------------
  // Categories
  // ---------------------------------------------------------------------------

  /** The five categories the screen knows. */
  datatype Category = EWaste | Organic | Recyclable | NonRecyclable | StoreDropOff
  {
    /** The label the classification service uses for the category. */
    function Name(): string
    {
      match this
      case EWaste => "EWaste"
      case Organic => "Organic"
      case Recyclable => "Recyclable"
      case NonRecyclable => "NonRecyclable"
      case StoreDropOff => "StoreDropOff"
    }

    /** The disposal guide opened by Learn More. */
    function Pathname(): string
    {
      match this
      case Recyclable => "/(tabs)/recyclable_disposal"
      case Organic => "/(tabs)/organic_disposal"
      case EWaste => "/(tabs)/ewaste_disposal"
      case NonRecyclable => "/(tabs)/nonrec_disposal"
      case StoreDropOff => "/(tabs)/store_disposal"
    }
  }

  /** The category a label names, if any. */
  function CategoryOf(name: string): (c: Option<Category>)
    ensures c.Some? ==> c.value.Name() == name
  {
    match name
    case "EWaste" => Some(EWaste)
    case "Organic" => Some(Organic)
    case "Recyclable" => Some(Recyclable)
    case "NonRecyclable" => Some(NonRecyclable)
    case "StoreDropOff" => Some(StoreDropOff)
    case _ => None
  }

  /** Every category is recognised from its own name. */
  lemma CategoryNameRoundTrip(c: Category)
    ensures CategoryOf(c.Name()) == Some(c)
  {
  }

  /** The comparison chain of the prediction effect. */
  predicate IsKnownCategory(name: string): (r: bool)
    ensures r <==> CategoryOf(name).Some?
  {
    name == "Recyclable" || name == "EWaste" || name == "Organic" ||
    name == "NonRecyclable" || name == "StoreDropOff"
  }

  /** The comparison chain accepts exactly the five category names. */
  lemma KnownIffCategory(name: string)
    ensures IsKnownCategory(name) <==> CategoryOf(name).Some?
    ensures IsKnownCategory(name) <==> exists c: Category :: c.Name() == name
  {
  }

  /**
   * Every label the `/predict` service of `backend/app.py` can answer with passes the
   * screen's comparison chain. The capture screen does not call `/predict` (it posts to
   * `/classify_image_with_llm` and reads `result.category`), so no data flow connects
   * the two lists: this states only that they agree.
   */
  lemma InferenceLabelsAreKnown()
    ensures forall i :: 0 <= i < |Inference.Labels| ==> IsKnownCategory(Inference.Labels[i])
  {
  }

  // ---------------------------------------------------------------------------
  // Learn More
  // ---------------------------------------------------------------------------

  /** A navigation: the target screen and its `item` parameter. */
  datatype Route = Route(pathname: string, item: string)

  const DefaultItem := "this item"

  /** `handleLearnMore`: the guide for the predicted category, or no navigation at all. */
  function LearnMoreRoute(prediction: Option<string>): (r: Option<Route>)
    ensures r.Some? <==> prediction.Some? && IsKnownCategory(prediction.value)
    ensures r.Some? ==> r.value.item == DefaultItem
  {
    KnownIffCategory(if prediction.Some? then prediction.value else "");
    match prediction
    case None => None
    case Some(name) =>
      match CategoryOf(name)
      case Some(c) => Some(Route(c.Pathname(), DefaultItem))
      case None => None
  }

  /** Different categories open different guides. */
  lemma RoutesDistinct(c: Category, d: Category)
    requires c != d
    ensures c.Pathname() != d.Pathname()
  {
  }

  /** The guide a known label opens is the one of the category the label names. */
  lemma LearnMoreFollowsCategory(c: Category)
    ensures LearnMoreRoute(Some(c.Name())) == Some(Route(c.Pathname(), DefaultItem))
  {
  }

  // ---------------------------------------------------------------------------
  // Display settings
  // ---------------------------------------------------------------------------

  /** One entry of the category table. */
  datatype Style = Style(
    color: string, gradientColors: seq<string>, icon: string, description: string,
    actionText: Option<string>, specialHandling: bool)

  function CategoryStyle(c: Category): Style
  {
    match c
    case EWaste => Style("#e74c3c", ["#e74c3c", "#c0392b"], "hardware-chip-outline",
      "Electronic waste should be recycled at designated e-waste centers.", None, false)
    case Organic => Style("#27ae60", ["#2ecc71", "#27ae60"], "leaf-outline",
      "Organic waste can be composted to create nutrient-rich soil.", None, false)
    case Recyclable => Style("#3498db", ["#3498db", "#2980b9"], "refresh-outline",
      "This item can be processed and reused to make new products.", None, false)
    case NonRecyclable => Style("#9b59b6", ["#9b59b6", "#8e44ad"], "trash-outline",
      "This item cannot be recycled and should be disposed of as general waste.", None, false)
    case StoreDropOff => Style("#f39c12", ["#f39c12", "#e67e22"], "storefront-outline",
      "This item requires special handling. Please take it to a participating retail store for proper recycling.",
      Some("Find Store Locations"), true)
  }

  /** The grey entry shown for a label outside the table. */
  const DefaultStyle := Style("#7f8c8d", ["#95a5a6", "#7f8c8d"], "help-circle-outline",
    "Please check local guidelines for disposal.", None, false)

  /**
   * `getPredictionConfig` as evidently intended: nothing without a prediction, the
   * table entry for a category name, the grey entry for any other label.
   */
  function PredictionConfig(prediction: Option<string>): (r: Option<Style>)
    ensures r.None? <==> prediction.None?
    ensures prediction.Some? && CategoryOf(prediction.value).Some? ==>
              r == Some(CategoryStyle(CategoryOf(prediction.value).value))
    ensures prediction.Some? && !IsKnownCategory(prediction.value) ==> r == Some(DefaultStyle)
  {
    KnownIffCategory(if prediction.Some? then prediction.value else "");
    match prediction
    case None => None
    case Some(name) =>
      match CategoryOf(name)
      case Some(c) => Some(CategoryStyle(c))
      case None => Some(DefaultStyle)
  }

  /**
   * The names an object literal inherits from `Object.prototype`. Indexing the
   * category table with one of them yields an inherited member, which is truthy.
   */
  const PrototypeMembers: set<string> := {
    "constructor", "hasOwnProperty", "isPrototypeOf", "propertyIsEnumerable",
    "toLocaleString", "toString", "valueOf", "__proto__",
    "__defineGetter__", "__defineSetter__", "__lookupGetter__", "__lookupSetter__"}

  /** What indexing the category table yields: an own entry, or an inherited member. */
  datatype ConfigValue = Entry(style: Style) | Inherited(member: string)

  /**
   * `getPredictionConfig` as written: `categoryConfig[label] || default`, where an
   * inherited member is truthy and so is returned instead of the default.
   */
  function PredictionConfigAsWritten(prediction: Option<string>): (r: Option<ConfigValue>)
    ensures r.None? <==> prediction.None?
    ensures r.Some? && r.value.Inherited? ==> r.value.member in PrototypeMembers
  {
    match prediction
    case None => None
    case Some(name) =>
      match CategoryOf(name)
      case Some(c) => Some(Entry(CategoryStyle(c)))
      case None => if name in PrototypeMembers then Some(Inherited(name)) else Some(Entry(DefaultStyle))
  }

  /** The label "constructor" gets `Object` itself rather than the grey entry. */
  lemma ConstructorLabelEscapesDefault()
    ensures PredictionConfigAsWritten(Some("constructor")) == Some(Inherited("constructor"))
    ensures PredictionConfig(Some("constructor")) == Some(DefaultStyle)
  {
  }

  /** Outside the inherited names, the code as written agrees with the intended lookup. */
  lemma AsWrittenAgreesOffPrototype(prediction: Option<string>)
    requires prediction.Some? ==> prediction.value !in PrototypeMembers
    ensures PredictionConfigAsWritten(prediction) ==
              (match PredictionConfig(prediction)
               case None => None
               case Some(s) => Some(Entry(s)))
  {
  }

  // ---------------------------------------------------------------------------
  // Scaling a camera frame
  // ---------------------------------------------------------------------------

  const MaxWidth: real := 800.0
  const MaxHeight: real := 600.0

  /**
   * The scaling rule: a landscape frame wider than 800 is brought to width 800, any
   * other frame taller than 600 to height 600, both keeping the aspect ratio;
   * everything else is kept.
   */
  function ScaledSize(width: real, height: real): (r: (real, real))
    ensures width <= MaxWidth && height <= MaxHeight ==> r == (width, height)
    ensures r == (width, height) || r.0 == MaxWidth || r.1 == MaxHeight
  {
    if width > height then
      if width > MaxWidth then (MaxWidth, height * (MaxWidth / width)) else (width, height)
    else
      if height > MaxHeight then (width * (MaxHeight / height), MaxHeight) else (width, height)
  }

  /** The resize in `handleCapture`, reassigning the two dimensions in place. */
  method Resize(videoWidth: real, videoHeight: real) returns (newWidth: real, newHeight: real)
    ensures (newWidth, newHeight) == ScaledSize(videoWidth, videoHeight)
    ensures newWidth * videoHeight == newHeight * videoWidth
  {
    newWidth := videoWidth;
    newHeight := videoHeight;
    if videoWidth > videoHeight {
      if videoWidth > MaxWidth {
        newHeight := newHeight * (MaxWidth / newWidth);
        newWidth := MaxWidth;
      }
    } else {
      if videoHeight > MaxHeight {
        newWidth := newWidth * (MaxHeight / newHeight);
        newHeight := MaxHeight;
      }
    }
    ScaledSizeKeepsRatio(videoWidth, videoHeight);
  }

  /** Scaling keeps the aspect ratio: w'/h' = w/h, written without division. */
  lemma ScaledSizeKeepsRatio(width: real, height: real)
    ensures var (w, h) := ScaledSize(width, height); w * height == h * width
  {
  }

  /** A frame with non-negative sides is never enlarged in either dimension. */
  lemma ScaledSizeNeverEnlarges(width: real, height: real)
    requires 0.0 <= width && 0.0 <= height
    ensures var (w, h) := ScaledSize(width, height); w <= width && h <= height && 0.0 <= w && 0.0 <= h
  {
  }

  /** A frame that is not landscape ends at most 600 high; a landscape one at most 800 wide. */
  lemma ScaledSizeBounds(width: real, height: real)
    ensures var (w, h) := ScaledSize(width, height);
            (width <= height ==> h <= MaxHeight) && (width > height ==> w <= MaxWidth)
  {
  }

  /** The sizes a canvas has when its `width` or `height` attribute is missing or invalid. */
  const DefaultCanvasWidth: nat := 300
  const DefaultCanvasHeight: nat := 150

  /**
   * `canvas.width = x` (or `height`): the attribute is an `unsigned long`, so the value
   * is truncated toward zero and taken modulo 2^32; the attribute then keeps it only
   * when it is at most 2^31 - 1, and falls back to `fallback` (the attribute's
   * default) otherwise.
   */
  function CanvasDimension(x: real, fallback: nat): (n: nat)
    ensures n < 0x8000_0000 || n == fallback
    ensures 0.0 <= x < 2147483648.0 ==> n == x.Floor && n as real <= x < n as real + 1.0
    ensures 2147483648.0 <= x < 4294967296.0 ==> n == fallback
    ensures -2147483648.0 <= x <= -1.0 ==> n == fallback
  {
    var wrapped := (if x >= 0.0 then x.Floor else -((-x).Floor)) % 0x1_0000_0000;
    if wrapped < 0x8000_0000 then wrapped else fallback
  }

  /**
   * A scaled camera frame has both sides between 0 and 800, so the canvas keeps the
   * whole-pixel part of each and never falls back to its default size.
   */
  lemma ScaledFrameFitsCanvas(width: nat, height: nat, fallback: nat)
    ensures var size := ScaledSize(width as real, height as real);
            && 0.0 <= size.0 <= MaxWidth && 0.0 <= size.1 <= MaxWidth
            && CanvasDimension(size.0, fallback) == size.0.Floor
            && CanvasDimension(size.1, fallback) == size.1.Floor
  {
    ScaledSizeWithinMaxWidth(width as real, height as real);
  }

  /** Both sides of a scaled frame with non-negative sides lie between 0 and 800. */
  lemma ScaledSizeWithinMaxWidth(x: real, y: real)
    requires 0.0 <= x && 0.0 <= y
    ensures 0.0 <= ScaledSize(x, y).0 <= MaxWidth && 0.0 <= ScaledSize(x, y).1 <= MaxWidth
  {
    if x > y && x > MaxWidth {
      assert ScaledSize(x, y).0 == MaxWidth && ScaledSize(x, y).1 == y * (MaxWidth / x);
      ScaleDownStaysWithin(y, x, MaxWidth);
    } else if x <= y && y > MaxHeight {
      assert ScaledSize(x, y).0 == x * (MaxHeight / y) && ScaledSize(x, y).1 == MaxHeight;
      ScaleDownStaysWithin(x, y, MaxHeight);
    }
  }

  /** Scaling the shorter side `a` by `bound / b` keeps it within `bound`. */
  lemma ScaleDownStaysWithin(a: real, b: real, bound: real)
    requires 0.0 <= a <= b && 0.0 < b && 0.0 < bound
    ensures 0.0 <= a * (bound / b) <= bound
  {
    var r := bound / b;
    assert 0.0 < r;
    assert a * r <= b * r;
  }

  /** A 1366×768 frame is scaled to 800×449.78…, and the canvas holds 800×449 pixels. */
  lemma WideFrameLosesAFractionalRow()
    ensures ScaledSize(1366.0, 768.0).0 == MaxWidth
    ensures 449.0 < ScaledSize(1366.0, 768.0).1 < 450.0
    ensures CanvasDimension(ScaledSize(1366.0, 768.0).0, DefaultCanvasWidth) == 800
    ensures CanvasDimension(ScaledSize(1366.0, 768.0).1, DefaultCanvasHeight) == 449
  {
    var h := ScaledSize(1366.0, 768.0).1;
    assert h == 768.0 * (800.0 / 1366.0);
    assert 449.0 <= h < 450.0;
  }

  /** A landscape frame of 790×700 is kept as it is, taller than 600. */
  lemma LandscapeMayExceedMaxHeight()
    ensures ScaledSize(790.0, 700.0) == (790.0, 700.0)
    ensures ScaledSize(790.0, 700.0).1 > MaxHeight
  {
  }

  // ---------------------------------------------------------------------------
  // The classification reply
  // ---------------------------------------------------------------------------

  const NativeCaptureMessage := "Native camera capture is not implemented in this version."
  const LlmErrorPrefix := "LLM Error: "
  const UnexpectedReplyMessage := "LLM classification failed: Unexpected response from server."
  const CaptureFailedMessage := "Image classification failed. Please reload app or try again."

  /** A JSON string field, absent or null as `None`. */
  predicate Truthy(field: Option<string>)
  {
    field.Some? && field.value != ""
  }

  /**
   * What the request produced: it threw (no connection, a non-2xx status or a body
   * that is not JSON), or it returned a JSON object with these two fields.
   */
  datatype ServerReply = Threw | Replied(category: Option<string>, error: Option<string>)

  /** What a parsed reply does to the screen: set a prediction, or show a message. */
  datatype ReplyAction = ShowPrediction(name: string) | ShowError(message: string)

  /** The branch on the parsed JSON reply. */
  function ReplyActionOf(category: Option<string>, error: Option<string>): (a: ReplyAction)
    ensures a.ShowPrediction? <==> Truthy(category)
    ensures a.ShowPrediction? ==> Some(a.name) == category
    ensures !Truthy(category) && !Truthy(error) ==> a == ShowError(UnexpectedReplyMessage)
  {
    if Truthy(category) then ShowPrediction(category.value)
    else if Truthy(error) then ShowError(LlmErrorPrefix + error.value)
    else ShowError(UnexpectedReplyMessage)
  }

  /** A service-side error is shown behind the fixed prefix, quoted in full. */
  lemma ServiceErrorIsQuoted(category: Option<string>, error: Option<string>)
    requires !Truthy(category) && Truthy(error)
    ensures var a := ReplyActionOf(category, error);
            && a.ShowError?
            && |a.message| == |LlmErrorPrefix| + |error.value|
            && a.message[..|LlmErrorPrefix|] == LlmErrorPrefix
            && a.message[|LlmErrorPrefix|..] == error.value
  {
  }

  // ---------------------------------------------------------------------------
  // The screen
  // ---------------------------------------------------------------------------

  /** The video element, when mounted: its ready state and its intrinsic size. */
  datatype Video = Video(readyState: int, width: nat, height: nat)

  /**
   * What the web camera offers for one capture: the video element, the canvas and
   * its 2-d context, and whether the canvas encoded the frame to non-empty data.
   */
  datatype Camera = Camera(video: Option<Video>, canvasMounted: bool, hasContext: bool, encodes: bool)

  /** A captured frame: the canvas it was drawn on, in whole pixels. */
  datatype Snapshot = Snapshot(width: nat, height: nat)

  /** Requests to outside services, in the order the screen makes them. */
  datatype Effect =
    | PostImage(frame: Snapshot)
    | AddPoints(uid: string, amount: int)
    | Navigate(route: Route)

  /** Every check `handleCapture` makes before sending passes. */
  predicate FrameReady(cam: Camera)
  {
    cam.video.Some? && cam.video.value.readyState >= 2 && cam.canvasMounted && cam.hasContext && cam.encodes
  }

  const PointsPerCapture := 5

  class CaptureScreen {
    var imageUri: Option<Snapshot>
    var prediction: Option<string>
    var error: Option<string>
    var isClassifying: bool
    var showTip: bool
    var showLearnMore: bool
    var showPointsAnimation: bool
    var webcamActive: bool
    var effects: seq<Effect>

    constructor ()
      ensures imageUri.None? && prediction.None? && error.None?
      ensures !isClassifying && showTip && !showLearnMore && !showPointsAnimation && !webcamActive
      ensures effects == []
    {
      imageUri, prediction, error := None, None, None;
      isClassifying, showTip, showLearnMore, showPointsAnimation := false, true, false, false;
      webcamActive := false;
      effects := [];
    }

    /**
     * `handleCapture`. Off the web it only reports that native capture is missing.
     * On the web a failed check, or a request that throws, leaves the generic failure
     * message; otherwise the scaled frame is shown and sent, the reply is applied and
     * the webcam is switched off.
     */
    method Capture(isWeb: bool, cam: Camera, reply: ServerReply)
      modifies this
      ensures !isClassifying
      ensures showTip == old(showTip) && showLearnMore == old(showLearnMore)
      ensures showPointsAnimation == old(showPointsAnimation)
      ensures !isWeb ==>
                && error == Some(NativeCaptureMessage)
                && effects == old(effects) && imageUri == old(imageUri)
                && prediction == old(prediction) && webcamActive == old(webcamActive)
      ensures isWeb && !FrameReady(cam) ==>
                && error == Some(CaptureFailedMessage)
                && effects == old(effects) && imageUri == old(imageUri)
                && prediction == old(prediction) && webcamActive == old(webcamActive)
      ensures isWeb && FrameReady(cam) ==>
                var size := ScaledSize(cam.video.value.width as real, cam.video.value.height as real);
                var frame := Snapshot(CanvasDimension(size.0, DefaultCanvasWidth),
                                      CanvasDimension(size.1, DefaultCanvasHeight));
                && imageUri == Some(frame)
                && effects == old(effects) + [PostImage(frame)]
                && (reply.Threw? ==>
                      && error == Some(CaptureFailedMessage)
                      && prediction == old(prediction) && webcamActive == old(webcamActive))
                && (reply.Replied? ==>
                      && !webcamActive
                      && match ReplyActionOf(reply.category, reply.error)
                         case ShowPrediction(name) => prediction == Some(name) && error.None?
                         case ShowError(message) => prediction == old(prediction) && error == Some(message))
    {
      isClassifying := true;
      error := None;
      if !isWeb {
        error := Some(NativeCaptureMessage);
        isClassifying := false;
        return;
      }
      if !FrameReady(cam) {
        error := Some(CaptureFailedMessage);
        isClassifying := false;
        return;
      }
      var newWidth, newHeight := Resize(cam.video.value.width as real, cam.video.value.height as real);
      var frame := Snapshot(CanvasDimension(newWidth, DefaultCanvasWidth),
                            CanvasDimension(newHeight, DefaultCanvasHeight));
      imageUri := Some(frame);
      effects := effects + [PostImage(frame)];
      match reply {
        case Threw =>
          error := Some(CaptureFailedMessage);
        case Replied(category, serviceError) =>
          match ReplyActionOf(category, serviceError) {
            case ShowPrediction(name) =>
              prediction := Some(name);
            case ShowError(message) =>
              error := Some(message);
          }
          webcamActive := false;
      }
      isClassifying := false;
    }

    /**
     * The effect that runs when `prediction` changes: Learn More is offered, and 5
     * points requested for the signed-in user, exactly for a known category; any
     * prediction starts the points animation; no prediction hides Learn More.
     */
    method PredictionChanged(currentUser: Option<string>)
      modifies this
      ensures prediction.None? ==>
                && !showLearnMore && effects == old(effects)
                && showPointsAnimation == old(showPointsAnimation)
      ensures prediction.Some? ==>
                && showPointsAnimation
                && (showLearnMore <==> IsKnownCategory(prediction.value))
                && effects == old(effects) +
                     (if IsKnownCategory(prediction.value) && currentUser.Some?
                      then [AddPoints(currentUser.value, PointsPerCapture)] else [])
      ensures prediction == old(prediction) && imageUri == old(imageUri) && error == old(error)
      ensures isClassifying == old(isClassifying) && showTip == old(showTip)
      ensures webcamActive == old(webcamActive)
    {
      if prediction.None? {
        showLearnMore := false;
        return;
      }
      var name := prediction.value;
      if IsKnownCategory(name) {
        showLearnMore := true;
        if currentUser.Some? {
          effects := effects + [AddPoints(currentUser.value, PointsPerCapture)];
        }
      } else {
        showLearnMore := false;
      }
      showPointsAnimation := true;
    }

    /** The end of the points animation hides it. */
    method PointsAnimationFinished()
      modifies this
      ensures !showPointsAnimation
      ensures imageUri == old(imageUri) && prediction == old(prediction) && error == old(error)
      ensures isClassifying == old(isClassifying) && showTip == old(showTip)
      ensures showLearnMore == old(showLearnMore) && webcamActive == old(webcamActive)
      ensures effects == old(effects)
    {
      showPointsAnimation := false;
    }

    /** `handleRetake`: back to a live camera with nothing captured. */
    method Retake()
      modifies this
      ensures imageUri.None? && prediction.None? && error.None?
      ensures showTip && !showPointsAnimation && webcamActive
      ensures isClassifying == old(isClassifying) && showLearnMore == old(showLearnMore)
      ensures effects == old(effects)
    {
      imageUri := None;
      prediction := None;
      error := None;
      showTip := true;
      showPointsAnimation := false;
      webcamActive := true;
    }

    /** `handleLearnMore`: open the guide for the prediction, if it names a category. */
    method LearnMore()
      modifies this
      ensures LearnMoreRoute(prediction).Some? ==>
                effects == old(effects) + [Navigate(LearnMoreRoute(prediction).value)]
      ensures LearnMoreRoute(prediction).None? ==> effects == old(effects)
      ensures imageUri == old(imageUri) && prediction == old(prediction) && error == old(error)
      ensures isClassifying == old(isClassifying) && showTip == old(showTip)
      ensures showLearnMore == old(showLearnMore) && webcamActive == old(webcamActive)
      ensures showPointsAnimation == old(showPointsAnimation)
    {
      var route := LearnMoreRoute(prediction);
      if route.Some? {
        effects := effects + [Navigate(route.value)];
      }
    }
  }

  /**
   * A retake after any capture hides Learn More once the effect has run, and asks for
   * no points.
   */
  method RetakeHidesLearnMore(screen: CaptureScreen, user: Option<string>)
    modifies screen
    ensures !screen.showLearnMore && screen.prediction.None?
    ensures screen.effects == old(screen.effects)
  {
    screen.Retake();
    screen.PredictionChanged(user);
  }
}
