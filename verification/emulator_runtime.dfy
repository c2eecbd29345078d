/**
  The input state of one emulated avatar: the viseme and gesture properties with
  their mirrored enum fields, the clamped movement vector, the viseme smoothing
  factor, and the emote and cancel flags that the frame update and the fixed
  update pass between each other. Engine calls (the animator, blend shapes, the
  human pose) are outside the model: what the engine reports arrives as an input
  and what is sent to it is returned.
*/
module EmulatorRuntime {

  import opened Common

  // ---------------------------------------------------------------- gestures

  /** The gesture enum, by its underlying value; a cast from an int keeps any value. */
  const HandOpen := 0
  const Neutral := 1
  const Fist := 2
  const ThumbsUp := 3
  const HandGun := 4
  const Fingerpoint := 5
  const Victory := 6
  const RockNRoll := 7

  /** The gesture index the float setter derives: values in (0, 1] are the Fist weight, any other value `v` is index `floor(v + 1)`. */
  function GestureFromFloat(v: real): int
  {
    if 0.0 < v <= 1.0 then Fist else (v + 1.0).Floor
  }

  /** The float the index setter derives: one less than the index. */
  function GestureToFloat(i: int): real
  {
    i as real - 1.0
  }

  /**
    The float setter: the Fist rule takes the whole of (0, 1], where the plain floor
    rule would give Neutral below 1; any float in the slider's range [-1, 6] maps
    into the enum's range.
  */
  lemma GestureFromFloatCases(v: real)
    ensures 0.0 < v <= 1.0 ==> GestureFromFloat(v) == Fist
    ensures 0.0 < v < 1.0 ==> (v + 1.0).Floor == Neutral
    ensures !(0.0 < v <= 1.0) ==> GestureFromFloat(v) == (v + 1.0).Floor
    ensures -1.0 <= v <= 6.0 ==> HandOpen <= GestureFromFloat(v) <= RockNRoll
  {
  }

  /** Index to float to index gives the index back, for every index and so for all eight gestures. */
  lemma GestureRoundTrip(i: int)
    ensures GestureFromFloat(GestureToFloat(i)) == i
  {
    assert GestureToFloat(i) + 1.0 == i as real;
  }

  /** Float to index to float to index gives the same index: an index the float setter produced is stable. */
  lemma GestureIndexStable(v: real)
    ensures GestureFromFloat(GestureToFloat(GestureFromFloat(v))) == GestureFromFloat(v)
  {
    GestureRoundTrip(GestureFromFloat(v));
  }

  // ---------------------------------------------------------------- rounding and smoothing

  /** `Mathf.RoundToInt`: to the nearest integer, a tie going to the even neighbour. */
  function RoundToInt(x: real): int
  {
    var f := x.Floor;
    var d := x - f as real;
    if d < 0.5 then f else if d > 0.5 then f + 1 else if f % 2 == 0 then f else f + 1
  }

  /** Rounding keeps integers, lands within one half of its input, and gives 0 exactly on [-0.5, 0.5]. */
  lemma RoundToIntProperties(x: real, n: int)
    ensures RoundToInt(n as real) == n
    ensures -0.5 <= RoundToInt(x) as real - x <= 0.5
    ensures RoundToInt(x) == 0 <==> -0.5 <= x <= 0.5
  {
    assert (n as real).Floor == n;
  }

  /** `Mathf.Clamp(100 - smoothing, 1, 100) / 100`: how far the viseme weights move toward their target each frame. */
  function SmoothingFactor(smoothing: int): (f: real)
    ensures 0.01 <= f <= 1.0
  {
    Clamp((100 - smoothing) as real, 1.0, 100.0) / 100.0
  }

  /** More smoothing never gives a larger factor; no smoothing gives 1 and 99 or more gives 0.01. */
  lemma SmoothingFactorShape(s: int, t: int)
    ensures s <= t ==> SmoothingFactor(t) <= SmoothingFactor(s)
    ensures s <= 0 ==> SmoothingFactor(s) == 1.0
    ensures s >= 99 ==> SmoothingFactor(s) == 0.01
    ensures SmoothingFactor(50) == 0.5
  {
  }

  // ---------------------------------------------------------------- emotes

  /** The emote and cancel fields as the update steps see them. */
  datatype EmoteState = EmoteState(emote: real, cancelEmote: bool, played: bool, playing: bool, canceled: bool)

  /**
    `Update_EmoteValues_Update`: an emote seen last frame and a cancel seen last
    frame are reset; the engine's emote-playing report is taken; what is set now is
    remembered for next frame.
  */
  function EmoteUpdate(s: EmoteState, playingNow: bool): EmoteState
  {
    var s1 := if s.played then s.(played := false, emote := 0.0) else s;
    var s2 := if s1.canceled then s1.(canceled := false, cancelEmote := false) else s1;
    s2.(playing := playingNow, played := RoundToInt(s2.emote) != 0, canceled := s2.cancelEmote)
  }

  /** `Update_EmoteValues_FixedUpdate`: moving while an emote plays asks for a cancel. */
  function EmoteFixedUpdate(s: EmoteState, moving: bool): EmoteState
  {
    if moving && s.playing then s.(cancelEmote := true) else s
  }

  /** The emote part of `Apply_CoreParameters`: a pending cancel fires once and is cleared. */
  function ApplyCancel(s: EmoteState): (r: (EmoteState, bool))
  {
    (s.(cancelEmote := false), s.cancelEmote)
  }

  /** A frame: the emote update, then the core-parameter push; yields the state and whether a cancel fired. */
  function Frame(s: EmoteState, playingNow: bool): (EmoteState, bool)
  {
    ApplyCancel(EmoteUpdate(s, playingNow))
  }

  /**
    Emote is a pulse: after a frame's update the played flag says whether the
    emote rounds to a non-zero index, and a non-zero emote is back at 0 after the
    next frame's update.
  */
  lemma EmotePulse(s: EmoteState, p1: bool, p2: bool)
    ensures var s1 := EmoteUpdate(s, p1);
      && (s1.played <==> RoundToInt(s1.emote) != 0)
      && (s1.played ==> EmoteUpdate(s1, p2).emote == 0.0 && !EmoteUpdate(s1, p2).played)
    ensures s.played ==> EmoteUpdate(s, p1).emote == 0.0
    ensures !s.played ==> EmoteUpdate(s, p1).emote == s.emote
  {
    RoundToIntProperties(0.0, 0);
  }

  /**
    Cancelling: a fixed update asks for a cancel exactly when the avatar moves while
    an emote plays (or one was already asked for); a frame fires it exactly when it
    is asked for and was not already seen last frame, and afterwards none is pending,
    so a frame with no fixed update in between fires nothing.
  */
  lemma CancelFiresOnce(s: EmoteState, moving: bool, p1: bool, p2: bool)
    ensures EmoteFixedUpdate(s, moving).cancelEmote <==> s.cancelEmote || (moving && s.playing)
    ensures Frame(s, p1).1 <==> s.cancelEmote && !s.canceled
    ensures !Frame(s, p1).0.cancelEmote
    ensures !Frame(Frame(s, p1).0, p2).1
  {
  }

  /** Hand-layer weight: the hands are off while an emote plays. */
  function HandLayerWeight(emotePlaying: bool): (w: real)
    ensures w == 0.0 <==> emotePlaying
    ensures w == 1.0 <==> !emotePlaying
  {
    if emotePlaying then 0.0 else 1.0
  }

  // ---------------------------------------------------------------- the component

  /** `AASEmulatorRuntime`'s input fields. */
  class AASEmulatorRuntime {
    var viseme: int
    var visemeIdx: int
    var visemeSmoothing: int
    var visemeSmoothingFactor: real

    var gestureLeft: real
    var gestureRight: real
    var gestureLeftIdx: int
    var gestureRightIdx: int

    var movementX: real
    var movementY: real
    var grounded: bool

    var emote: real
    var cancelEmote: bool
    var emotePlayed: bool
    var emotePlaying: bool
    var emoteCanceled: bool

    /** The mirrored fields agree, movement is within the unit square, and the factor matches the smoothing it came from. */
    predicate Valid()
      reads this
    {
      && viseme == visemeIdx
      && gestureLeftIdx == GestureFromFloat(gestureLeft)
      && gestureRightIdx == GestureFromFloat(gestureRight)
      && -1.0 <= movementX <= 1.0 && -1.0 <= movementY <= 1.0
      && visemeSmoothingFactor == SmoothingFactor(visemeSmoothing)
    }

    function Emotes(): EmoteState
      reads this
    {
      EmoteState(emote, cancelEmote, emotePlayed, emotePlaying, emoteCanceled)
    }

    /**
      The field initialisers followed by `Start`: the defaults, then the avatar's
      viseme smoothing when it has a body mesh and viseme blend shapes.
    */
    constructor (avatarSmoothing: Option<int>)
      ensures Valid()
      ensures viseme == 0 && gestureLeft == 0.0 && gestureRight == 0.0 && gestureLeftIdx == Neutral && gestureRightIdx == Neutral
      ensures grounded && movementX == 0.0 && movementY == 0.0
      ensures Emotes() == EmoteState(0.0, false, false, false, false)
      ensures visemeSmoothing == (if avatarSmoothing.Some? then avatarSmoothing.value else 50)
    {
      viseme, visemeIdx := 0, 0;
      visemeSmoothing, visemeSmoothingFactor := 50, 0.5;
      gestureLeft, gestureRight := 0.0, 0.0;
      gestureLeftIdx, gestureRightIdx := HandOpen, HandOpen;
      movementX, movementY := 0.0, 0.0;
      grounded := true;
      emote, cancelEmote := 0.0, false;
      emotePlayed, emotePlaying, emoteCanceled := false, false, false;
      new;
      SetValuesToDefault();
      InitializeSmoothing(avatarSmoothing);
    }

    /** `SetValuesToDefault`. */
    method SetValuesToDefault()
      modifies this`viseme, this`visemeIdx, this`gestureLeft, this`gestureLeftIdx, this`gestureRight, this`gestureRightIdx, this`grounded
      ensures viseme == 0 && visemeIdx == 0
      ensures gestureLeft == 0.0 && gestureLeftIdx == Neutral && gestureRight == 0.0 && gestureRightIdx == Neutral
      ensures grounded
    {
      viseme, visemeIdx := 0, 0;
      gestureLeft, gestureLeftIdx := 0.0, Neutral;
      gestureRight, gestureRightIdx := 0.0, Neutral;
      grounded := true;
    }

    /** The smoothing part of `InitializeVisemeBlendShapeIndexes`; `avatarSmoothing` is absent without a body mesh or viseme blend shapes. */
    method InitializeSmoothing(avatarSmoothing: Option<int>)
      modifies this`visemeSmoothing, this`visemeSmoothingFactor
      ensures avatarSmoothing.Some? ==> visemeSmoothing == avatarSmoothing.value && visemeSmoothingFactor == SmoothingFactor(avatarSmoothing.value)
      ensures avatarSmoothing.None? ==> visemeSmoothing == old(visemeSmoothing) && visemeSmoothingFactor == old(visemeSmoothingFactor)
    {
      if avatarSmoothing.Some? {
        visemeSmoothing := avatarSmoothing.value;
        visemeSmoothingFactor := Clamp((100 - visemeSmoothing) as real, 1.0, 100.0) / 100.0;
      }
    }

    /** The smoothing refresh at the top of the Visemes case of `Apply_LipSync`: the factor is recomputed only when the setting changed. */
    method RefreshSmoothing(avatarSmoothing: int)
      requires Valid()
      modifies this`visemeSmoothing, this`visemeSmoothingFactor
      ensures Valid()
      ensures visemeSmoothing == avatarSmoothing && visemeSmoothingFactor == SmoothingFactor(avatarSmoothing)
    {
      if visemeSmoothing != avatarSmoothing {
        visemeSmoothingFactor := Clamp((100 - avatarSmoothing) as real, 1.0, 100.0) / 100.0;
      }
      visemeSmoothing := avatarSmoothing;
    }

    /** The `VisemeIdx` setter. */
    method SetVisemeIdx(value: int)
      requires Valid()
      modifies this`viseme, this`visemeIdx
      ensures Valid() && visemeIdx == value && viseme == value
    {
      visemeIdx := value;
      viseme := value;
    }

    /** The `Viseme` setter. */
    method SetViseme(value: int)
      requires Valid()
      modifies this`viseme, this`visemeIdx
      ensures Valid() && viseme == value && visemeIdx == value
    {
      viseme := value;
      visemeIdx := value;
    }

    /** The `GestureLeft` setter. */
    method SetGestureLeft(value: real)
      requires Valid()
      modifies this`gestureLeft, this`gestureLeftIdx
      ensures Valid() && gestureLeft == value && gestureLeftIdx == GestureFromFloat(value)
    {
      gestureLeft := value;
      if gestureLeft > 0.0 && gestureLeft <= 1.0 {
        gestureLeftIdx := Fist;
        return;
      }
      gestureLeftIdx := (value + 1.0).Floor;
    }

    /** The `GestureLeftIdx` setter. */
    method SetGestureLeftIdx(value: int)
      requires Valid()
      modifies this`gestureLeft, this`gestureLeftIdx
      ensures Valid() && gestureLeftIdx == value && gestureLeft == GestureToFloat(value)
    {
      gestureLeftIdx := value;
      gestureLeft := value as real - 1.0;
      GestureRoundTrip(value);
    }

    /** The `GestureRight` setter. */
    method SetGestureRight(value: real)
      requires Valid()
      modifies this`gestureRight, this`gestureRightIdx
      ensures Valid() && gestureRight == value && gestureRightIdx == GestureFromFloat(value)
    {
      gestureRight := value;
      if gestureRight > 0.0 && gestureRight <= 1.0 {
        gestureRightIdx := Fist;
        return;
      }
      gestureRightIdx := (value + 1.0).Floor;
    }

    /** The `GestureRightIdx` setter. */
    method SetGestureRightIdx(value: int)
      requires Valid()
      modifies this`gestureRight, this`gestureRightIdx
      ensures Valid() && gestureRightIdx == value && gestureRight == GestureToFloat(value)
    {
      gestureRightIdx := value;
      gestureRight := value as real - 1.0;
      GestureRoundTrip(value);
    }

    /** The `Movement` setter: each axis clamped into [-1, 1]. */
    method SetMovement(x: real, y: real)
      requires Valid()
      modifies this`movementX, this`movementY
      ensures Valid() && movementX == Clamp(x, -1.0, 1.0) && movementY == Clamp(y, -1.0, 1.0)
    {
      movementX := Clamp(x, -1.0, 1.0);
      movementY := Clamp(y, -1.0, 1.0);
    }

    /** The `Emote` getter. */
    function Emote(): int
      reads this
    {
      RoundToInt(emote)
    }

    /** `Update_EmoteValues_Update`; `playingNow` is what the animator reports. */
    method UpdateEmoteValuesUpdate(playingNow: bool)
      modifies this`emote, this`cancelEmote, this`emotePlayed, this`emotePlaying, this`emoteCanceled
      ensures Emotes() == EmoteUpdate(old(Emotes()), playingNow)
    {
      if emotePlayed {
        emotePlayed := false;
        emote := 0.0;
      }
      if emoteCanceled {
        emoteCanceled := false;
        cancelEmote := false;
      }
      if playingNow != emotePlaying {
        emotePlaying := playingNow;
      }
      emotePlayed := Emote() != 0;
      emoteCanceled := cancelEmote;
    }

    /** `Update_EmoteValues_FixedUpdate`: a movement vector of positive length while an emote plays asks for a cancel. */
    method UpdateEmoteValuesFixedUpdate()
      modifies this`cancelEmote
      ensures Emotes() == EmoteFixedUpdate(old(Emotes()), movementX != 0.0 || movementY != 0.0)
    {
      if (movementX != 0.0 || movementY != 0.0) && emotePlaying {
        cancelEmote := true;
      }
    }

    /** The emote part of `Apply_CoreParameters`: the weight both hand layers get, and whether the cancel trigger fired. */
    method ApplyCoreParameters() returns (handLayerWeight: real, cancelFired: bool)
      modifies this`cancelEmote
      ensures handLayerWeight == HandLayerWeight(emotePlaying)
      ensures (Emotes(), cancelFired) == ApplyCancel(old(Emotes()))
    {
      handLayerWeight := if emotePlaying then 0.0 else 1.0;
      cancelFired := false;
      if cancelEmote {
        cancelEmote := false;
        cancelFired := true;
      }
    }
  }
}
