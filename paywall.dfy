/** The premium gates of `usePaywall` (src/lib/paywall.js:9, 71-111): who
    counts as premium, who may save another carousel, when an export is
    watermarked, and the `showPaywall` flag the gates raise and the modal
    lowers. One hook instance is one `PaywallGate`: its profile and save
    count are fixed for the render, the flag is state. */
module Paywall {
  import opened Text
  import opened Slide

  /** Carousels a free user may keep. */
  const FreeCarouselLimit: nat := 3

  /** A profile row; `is_premium` may be absent. */
  datatype Profile = Profile(isPremium: Option<bool>)

  /** The premium flag of the profile: a missing profile or a missing flag
      both read as not premium; only a flag set to true is premium. */
  function IsPremium(profile: Option<Profile>): (premium: bool)
    ensures premium <==> profile == Some(Profile(Some(true)))
  {
    match profile
    case None => false
    case Some(p) =>
      match p.isPremium
      case None => false
      case Some(flag) => flag
    }

  /** Saving is open to premium users, and to free users below the quota. */
  function CanSave(premium: bool, saveCount: int): bool
  {
    premium || saveCount < FreeCarouselLimit
  }

  /** The exported image: the canvas as drawn, with the watermark over it
      unless the user is premium. */
  function Gated(image: seq<Command>, premium: bool): (exported: seq<Command>)
    ensures image <= exported
    ensures exported == image <==> premium
  {
    if premium then image else image + [Watermark]
  }

  /** How many of `attempts` successive save requests go through, when the
      stored count starts at `saveCount` and grows by one per save. The hook
      itself never changes the count: the count grows because its caller
      re-creates the hook with the count one higher after each save. */
  function SavesAllowed(premium: bool, saveCount: int, attempts: nat): (n: nat)
    ensures n <= attempts
    decreases attempts
  {
    if attempts == 0 then 0
    else if CanSave(premium, saveCount) then 1 + SavesAllowed(premium, saveCount + 1, attempts - 1)
    else SavesAllowed(premium, saveCount, attempts - 1)
  }

  /** The free quota: from the default count of zero, a free user gets
      exactly `FreeCarouselLimit` saves however often they ask; a premium
      user gets every save. */
  lemma {:induction false} FreeQuota(attempts: nat)
    ensures SavesAllowed(false, 0, attempts) == Min(attempts, FreeCarouselLimit)
    ensures SavesAllowed(true, 0, attempts) == attempts
  {
    FreeQuotaFrom(0, attempts);
    PremiumUnlimited(0, attempts);
  }

  lemma {:induction false} FreeQuotaFrom(saveCount: int, attempts: nat)
    requires saveCount <= FreeCarouselLimit
    ensures SavesAllowed(false, saveCount, attempts) == Min(attempts, FreeCarouselLimit - saveCount)
    decreases attempts
  {
    if attempts > 0 {
      if saveCount < FreeCarouselLimit {
        FreeQuotaFrom(saveCount + 1, attempts - 1);
      } else {
        FreeQuotaFrom(saveCount, attempts - 1);
      }
    }
  }

  lemma {:induction false} PremiumUnlimited(saveCount: int, attempts: nat)
    ensures SavesAllowed(true, saveCount, attempts) == attempts
    decreases attempts
  {
    if attempts > 0 { PremiumUnlimited(saveCount + 1, attempts - 1); }
  }

  /** A drawn slide leaves the export clean exactly when the user is
      premium: `canExportClean` and `gateExport` agree. */
  lemma CleanExportIffPremium(text: String, index: nat, fontSize: nat, family: String, signature: String,
                              metrics: Metrics, upper: String -> String, profile: Option<Profile>)
    ensures var image := DisplayList(text, index, fontSize, family, signature, metrics, upper);
            Watermark !in Gated(image, IsPremium(profile)) <==> IsPremium(profile)
  {
    var lines := Lines(text, fontSize, family, metrics, upper);
    LayoutUnmarked(lines, index, fontSize, family, signature, upper);
    var image := DisplayList(text, index, fontSize, family, signature, metrics, upper);
    assert Watermark !in image;
    if !IsPremium(profile) {
      assert Gated(image, false)[|image|] == Watermark;
    }
  }

  /** One `usePaywall(profile, saveCount)` instance. */
  class PaywallGate {
    const premium: bool
    const saveCount: int
    var showPaywall: bool

    /** A missing save count defaults to zero; the paywall starts hidden. */
    constructor(profile: Option<Profile>, count: Option<int>)
      ensures premium == IsPremium(profile)
      ensures saveCount == (if count.Some? then count.value else 0)
      ensures !showPaywall
    {
      premium := IsPremium(profile);
      saveCount := if count.Some? then count.value else 0;
      showPaywall := false;
    }

    /** `canExportClean` */
    function CanExportClean(): bool
    {
      premium
    }

    /** `gateExport`: the same canvas comes back, watermarked unless the
        user is premium. */
    method GateExport(canvas: Canvas) returns (result: Canvas)
      modifies canvas
      ensures result == canvas
      ensures canvas.commands == Gated(old(canvas.commands), CanExportClean())
      ensures canvas.width == old(canvas.width) && canvas.height == old(canvas.height)
    {
      if !premium {
        canvas.ApplyWatermark();
      }
      result := canvas;
    }

    /** `gateSave`: when saving is allowed, the save callback runs once and
        the flag is left alone; otherwise the callback does not run and the
        paywall is shown. `onSaveCalls` counts the callback's runs. */
    method GateSave() returns (saved: bool, onSaveCalls: nat)
      modifies this
      ensures saved <==> CanSave(premium, saveCount)
      ensures saved ==> onSaveCalls == 1 && showPaywall == old(showPaywall)
      ensures !saved ==> onSaveCalls == 0 && showPaywall
    {
      if !CanSave(premium, saveCount) {
        showPaywall := true;
        return false, 0;
      }
      onSaveCalls := 1;
      saved := true;
    }

    method OpenPaywall()
      modifies this
      ensures showPaywall
    {
      showPaywall := true;
    }

    method ClosePaywall()
      modifies this
      ensures !showPaywall
    {
      showPaywall := false;
    }
  }

  /** Successive save requests, each answered by a fresh `usePaywall`
      instance holding the save count as it stands: the count starts at
      `count` and goes up by one after every save that went through. The
      saves that go through are exactly `SavesAllowed`. */
  method SaveSession(profile: Option<Profile>, count: int, attempts: nat) returns (saved: nat)
    ensures saved == SavesAllowed(IsPremium(profile), count, attempts)
  {
    var current := count;
    saved := 0;
    for i := 0 to attempts
      invariant saved + SavesAllowed(IsPremium(profile), current, attempts - i)
                == SavesAllowed(IsPremium(profile), count, attempts)
    {
      var gate := new PaywallGate(profile, Some(current));
      var ok, _ := gate.GateSave();
      if ok {
        saved := saved + 1;
        current := current + 1;
      }
    }
  }
}
