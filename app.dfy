/** App.tsx: the free-tier limits, the coin balance and the paywall around
    media generation, the per-day usage counters and their daily reset, and
    the rule that decides when to ask for a rating. localStorage is modelled
    as fields of the same object; the generative calls are parameters. */
module App {
  import opened Common
  import opened Text
  import GeminiService

  const MaxFreeVeoDaily: int := 2
  const GenerationCost: int := 50
  /** 48 hours in milliseconds. */
  const RatingRepromptMs: int := 172800000
  const KeyInvalidMessage: string := "API Key invalid or not found. If running locally, please set API_KEY env var."
  const GenerateFailed: string := "Failed to generate. Please try again."

  /** A JavaScript string value that is set and not empty (truthy). */
  predicate Present(s: Option<string>)
  {
    s.Some? && s.value != ""
  }

  datatype UsageKind = VeoUsage | SplitUsage

  /** The record updateUsage stores: `amount` added to the named counter. */
  function AddUsage(u: UserUsage, kind: UsageKind, amount: int): (r: UserUsage)
    ensures r.date == u.date
    ensures kind == VeoUsage ==> r.veoCount - u.veoCount == amount && r.splitCount == u.splitCount
    ensures kind == SplitUsage ==> r.splitCount - u.splitCount == amount && r.veoCount == u.veoCount
  {
    match kind
    case VeoUsage => u.(veoCount := u.veoCount + amount)
    case SplitUsage => u.(splitCount := u.splitCount + amount)
  }

  /** Two updates of the same counter add up; updates of different counters
      commute. */
  lemma AddUsageComposes(u: UserUsage, k1: UsageKind, a: int, k2: UsageKind, b: int)
    ensures k1 == k2 ==> AddUsage(AddUsage(u, k1, a), k2, b) == AddUsage(u, k1, a + b)
    ensures AddUsage(AddUsage(u, k1, a), k2, b) == AddUsage(AddUsage(u, k2, b), k1, a)
  {
  }

  /** The usage loaded at start-up: the stored record if it is from today,
      otherwise fresh zero counters dated today. */
  function UsageForToday(stored: Option<UserUsage>, today: string): (r: UserUsage)
    ensures r.date == today
    ensures stored.Some? && stored.value.date == today ==> r == stored.value
    ensures !(stored.Some? && stored.value.date == today) ==> r.veoCount == 0 && r.splitCount == 0
  {
    if stored.Some? && stored.value.date == today then stored.value
    else UserUsage(today, 0, 0)
  }

  /** Loading twice on the same day gives what loading once gave. */
  lemma UsageForTodayStable(stored: Option<UserUsage>, today: string)
    ensures UsageForToday(Some(UsageForToday(stored, today)), today) == UsageForToday(stored, today)
  {
  }

  /** The displayed "Free Video Credits": max(0, 2 - veoCount). It is 0
      exactly when the daily limit applies. */
  function FreeCredits(veoCount: int): (r: int)
    ensures r >= 0
    ensures r == 0 <==> veoCount >= MaxFreeVeoDaily
    ensures veoCount >= 0 ==> r <= MaxFreeVeoDaily
  {
    MaxInt(0, MaxFreeVeoDaily - veoCount)
  }

  /** The ratios offered: five for images, the two the video model accepts for videos. */
  function AvailableRatios(kind: MediaType): (r: seq<AspectRatio>)
    ensures kind == Image ==> |r| == 5 && forall i, j :: 0 <= i < j < |r| ==> r[i] != r[j]
    ensures kind == Video ==> forall a :: a in r <==> GeminiService.VeoAspectRatio(a) == a
  {
    match kind
    case Image => [AR1x1, AR9x16, AR16x9, AR4x3, AR3x4]
    case Video => [AR9x16, AR16x9]
  }

  /** Whether start-up schedules the rating prompt: not rated yet, a stored
      login, and no earlier prompt or one more than 48 hours ago. */
  predicate RatingDue(ratingDone: bool, storedLogin: Option<string>, lastPrompt: Option<int>, now: int)
  {
    !ratingDone && Present(storedLogin) && (lastPrompt.None? || now - lastPrompt.value > RatingRepromptMs)
  }

  /** Within 48 hours of a prompt the user is not asked again, and once the
      prompt is due it stays due as time passes. */
  lemma RatingWindow(ratingDone: bool, storedLogin: Option<string>, last: int, now: int, later: int)
    requires now <= later
    ensures now - last <= RatingRepromptMs ==> !RatingDue(ratingDone, storedLogin, Some(last), now)
    ensures RatingDue(ratingDone, storedLogin, Some(last), now) ==> RatingDue(ratingDone, storedLogin, Some(last), later)
  {
  }

  /** How the synchronous start of handleGenerate ends. */
  datatype Gate =
    | OpenPricing          // over the free limit without enough coins
    | Declined             // the coin confirmation was refused
    | Blank                // nothing to generate from
    | Go(usingCoins: bool) // the request is sent, paid with coins or not

  /** The limit check of handleGenerate. The limit applies to free users
      generating videos; `confirmed` is the answer to the coin dialog, asked
      only when the limit is reached and the balance covers the cost. */
  function GenerateGate(isPro: bool, kind: MediaType, veoCount: int, coins: int, confirmed: bool,
                        promptBlank: bool, hasImage: bool): (g: Gate)
    ensures g == OpenPricing <==> !isPro && kind == Video && veoCount >= MaxFreeVeoDaily && coins < GenerationCost
    ensures g == Declined <==> !isPro && kind == Video && veoCount >= MaxFreeVeoDaily && coins >= GenerationCost && !confirmed
    ensures g.Go? <==> g != OpenPricing && g != Declined && !(promptBlank && !hasImage)
    ensures g.Go? && g.usingCoins <==>
      g.Go? && !isPro && kind == Video && veoCount >= MaxFreeVeoDaily && coins >= GenerationCost && confirmed
    ensures g.Go? && g.usingCoins ==> coins >= GenerationCost
  {
    var limited := !isPro && kind == Video && veoCount >= MaxFreeVeoDaily;
    if limited && coins < GenerationCost then OpenPricing
    else if limited && !confirmed then Declined
    else if promptBlank && !hasImage then Blank
    else Go(limited)
  }

  /** The request handleGenerate builds: the start image goes without its
      data-URL header (`split(',')[1]`). */
  function ConfigFor(prompt: string, ratio: AspectRatio, style: string, startImage: Option<string>,
                     kind: MediaType): (c: VideoConfig)
    ensures c.prompt == prompt && c.aspectRatio == ratio && c.style == style && c.generateType == kind
    ensures c.startImageMimeType.None?
    ensures !Present(startImage) ==> c.startImage.None?
  {
    VideoConfig(prompt, ratio, style, if Present(startImage) then CommaField1(startImage.value) else None, None, kind)
  }

  /** A start frame stored as a data URL reaches the video model as its bare
      base64 payload, typed image/jpeg. */
  lemma StartImageReachesModel(prompt: string, ratio: AspectRatio, style: string, mime: string, data: string)
    requires ',' !in mime && ',' !in data && data != ""
    ensures var c := ConfigFor(prompt, ratio, style, Some(GeminiService.DataUrl(mime, data)), Video);
      GeminiService.VeoPayload(c).image == Some((data, GeminiService.DefaultImageMime))
  {
    GeminiService.DataUrlPayload(mime, data);
  }

  /** The balance after a paid generation as App.tsx:271-272 computes it:
      the balance captured when handleGenerate started, minus the cost,
      whatever was earned meanwhile. */
  function PaidBalanceAsWritten(atStart: int, current: int): (r: int)
    ensures r == atStart - GenerationCost
  {
    atStart - GenerationCost
  }

  /** Coins earned while a paid generation runs are lost by the written code:
      more than the cost leaves the balance. With 50 coins at the start and 50
      earned meanwhile, 0 remain instead of 50. */
  lemma PaidBalanceLosesEarnedCoins(atStart: int, current: int)
    requires atStart < current
    ensures current - PaidBalanceAsWritten(atStart, current) > GenerationCost
    ensures PaidBalanceAsWritten(50, 100) == 0 && 100 - GenerationCost == 50
  {
  }

  /** The intended balance after a paid generation: the current balance minus
      the cost. It is never negative and keeps every coin earned since the
      generation started. */
  function PaidBalance(atStart: int, current: int): (r: int)
    requires GenerationCost <= atStart <= current
    ensures r >= 0 && current - r == GenerationCost
    ensures r - PaidBalanceAsWritten(atStart, current) == current - atStart
  {
    current - GenerationCost
  }

  /** The balance handleEarnCoins writes as App.tsx:183-186 computes it: the
      balance of the render in which "Watch Ad" was clicked, because the
      pricing dialog's tick closure keeps that render's callback, plus the
      reward; whatever changed the balance during the ad is overwritten. */
  function EarnedBalanceAsWritten(atClick: int, current: int, amount: int): (r: int)
    ensures r == atClick + amount
  {
    atClick + amount
  }

  /** A paid generation that completes while the ad runs gets its charge
      undone: with 100 coins at the click, the balance ends at 150 instead
      of 100. */
  lemma EarnedBalanceUndoesCharge(atClick: int, amount: int)
    requires atClick >= GenerationCost
    ensures var current := PaidBalance(atClick, atClick);
      EarnedBalanceAsWritten(atClick, current, amount) - (current + amount) == GenerationCost
    ensures EarnedBalanceAsWritten(100, PaidBalance(100, 100), 50) == 150
  {
  }

  /** The intended balance after an ad: the current balance plus the reward,
      keeping every change made since the click. */
  function EarnedBalance(atClick: int, current: int, amount: int): (r: int)
    ensures r - current == amount
    ensures r - EarnedBalanceAsWritten(atClick, current, amount) == current - atClick
  {
    current + amount
  }

  /** The closure of a running handleGenerate. */
  datatype Pending = Pending(usingCoins: bool, isPro: bool, config: VideoConfig, coinsAtStart: int)

  /** The generation form: media type, prompt, ratio, style and the start
      frame as a data URL. */
  datatype Form = Form(generationType: MediaType, prompt: string, aspectRatio: AspectRatio,
                       style: string, startImage: Option<string>)

  /** The localStorage entries the application keeps. */
  datatype Storage = Storage(login: Option<string>, usage: Option<UserUsage>, pro: bool,
                             coins: Option<int>, ratingDone: bool, ratingPrompt: Option<int>)

  class AppModel {
    var isLoggedIn: bool
    var hasKey: bool
    var isPro: bool
    var coins: int
    var usage: UserUsage
    var media: seq<GeneratedMedia>
    var showPricing: bool
    var showRating: bool
    var isGenerating: bool
    var errorMsg: Option<string>
    var form: Form
    var pending: Option<Pending>
    var store: Storage

    /** The balance is never negative, and once it is not 0 it is the stored
        one; a paid generation in flight is covered by the balance. */
    ghost predicate Valid()
      reads this
    {
      && coins >= 0
      && (coins == 0 || store.coins == Some(coins))
      && (store.coins.Some? ==> store.coins.value >= 0)
      && (isGenerating <==> pending.Some?)
      && (pending.Some? && pending.value.usingCoins ==> GenerationCost <= pending.value.coinsAtStart <= coins)
    }

    /** The first render: the initial state values, with whatever
        localStorage holds from earlier sessions. A stored balance is one the
        application wrote, so it is not negative. */
    constructor(stored: Storage)
      requires stored.coins.Some? ==> stored.coins.value >= 0
      ensures Valid()
      ensures !isLoggedIn && !hasKey && !isPro && coins == 0 && usage == UserUsage("", 0, 0)
      ensures media == [] && !isGenerating && errorMsg.None? && !showPricing && !showRating
      ensures form == Form(Video, "", AR9x16, "90s Retro", None) && store == stored
    {
      isLoggedIn, hasKey, isPro, coins, usage := false, false, false, 0, UserUsage("", 0, 0);
      media, showPricing, showRating, isGenerating, errorMsg := [], false, false, false, None;
      form, pending, store := Form(Video, "", AR9x16, "90s Retro", None), None, stored;
    }

    /** The start-up effect (run again when the login changes): restore the
        login, record whether a key is available (the result of ensureApiKey),
        load today's usage, the Pro flag and the balance, and schedule the
        rating prompt when it is due. */
    method Init(keyAvailable: bool, today: string, now: int)
      requires Valid()
      modifies this`isLoggedIn, this`hasKey, this`usage, this`isPro, this`coins, this`showRating
      ensures Valid()
      ensures isLoggedIn == (old(isLoggedIn) || Present(store.login))
      ensures hasKey == keyAvailable
      ensures usage == UsageForToday(store.usage, today)
      ensures isPro == (old(isPro) || store.pro)
      ensures coins == if store.coins.Some? then store.coins.value else old(coins)
      ensures showRating == (old(showRating) || RatingDue(store.ratingDone, store.login, store.ratingPrompt, now))
    {
      RestoreLogin();
      hasKey := keyAvailable;
      LoadUsage(today);
      LoadProAndCoins();
      ScheduleRating(now);
    }

    /** The first step of start-up: a stored login shows the application. */
    method RestoreLogin()
      requires Valid()
      modifies this`isLoggedIn
      ensures Valid() && isLoggedIn == (old(isLoggedIn) || Present(store.login))
    {
      if Present(store.login) {
        isLoggedIn := true;
      }
    }

    /** Today's usage record, or zero counters on a new day. */
    method LoadUsage(today: string)
      requires Valid()
      modifies this`usage
      ensures Valid() && usage == UsageForToday(store.usage, today)
    {
      usage := UsageForToday(store.usage, today);
    }

    /** The stored Pro flag and balance. */
    method LoadProAndCoins()
      requires Valid()
      modifies this`isPro, this`coins
      ensures Valid()
      ensures isPro == (old(isPro) || store.pro)
      ensures coins == if store.coins.Some? then store.coins.value else old(coins)
    {
      if store.pro {
        isPro := true;
      }
      if store.coins.Some? {
        coins := store.coins.value;
      }
    }

    /** The rating prompt is scheduled when it is due. */
    method ScheduleRating(now: int)
      requires Valid()
      modifies this`showRating
      ensures Valid()
      ensures showRating == (old(showRating) || RatingDue(store.ratingDone, store.login, store.ratingPrompt, now))
    {
      if RatingDue(store.ratingDone, store.login, store.ratingPrompt, now) {
        showRating := true;
      }
    }

    /** handleLogin: remember the provider and show the application. */
    method Login(provider: string)
      requires Valid() && provider != ""
      modifies this`store, this`isLoggedIn
      ensures Valid() && isLoggedIn && store == old(store).(login := Some(provider))
    {
      store, isLoggedIn := store.(login := Some(provider)), true;
    }

    /** handleLogout: forget the login; start-up no longer restores it and
        no longer asks for a rating. */
    method Logout()
      requires Valid()
      modifies this`store, this`isLoggedIn
      ensures Valid() && !isLoggedIn && store == old(store).(login := None)
      ensures forall now :: !RatingDue(store.ratingDone, store.login, store.ratingPrompt, now)
    {
      store, isLoggedIn := store.(login := None), false;
    }

    /** The generation-type toggle (setGenerationType). */
    method SetGenerationType(t: MediaType)
      requires Valid()
      modifies this`form
      ensures Valid() && form == old(form).(generationType := t)
    {
      form := form.(generationType := t);
    }

    /** The prompt box, and the prompt an enhancement or a frame description
        writes into it (setPrompt). */
    method SetPrompt(p: string)
      requires Valid()
      modifies this`form
      ensures Valid() && form == old(form).(prompt := p)
    {
      form := form.(prompt := p);
    }

    /** A ratio button (setAspectRatio). */
    method SetAspectRatio(a: AspectRatio)
      requires Valid()
      modifies this`form
      ensures Valid() && form == old(form).(aspectRatio := a)
    {
      form := form.(aspectRatio := a);
    }

    /** The style picker (setStyle). */
    method SetStyle(st: string)
      requires Valid()
      modifies this`form
      ensures Valid() && form == old(form).(style := st)
    {
      form := form.(style := st);
    }

    /** The start image's remove button (setStartImage(null)). */
    method ClearStartImage()
      requires Valid()
      modifies this`form
      ensures Valid() && form == old(form).(startImage := None)
    {
      form := form.(startImage := None);
    }

    /** handleFileUpload: `extracted` is None when no file was chosen,
        otherwise what extractFrameFromFile settled with. A frame becomes the
        start image; a failure only raises an alert and leaves the form. */
    method HandleFileUpload(extracted: Option<Result<string>>)
      requires Valid()
      modifies this`form
      ensures Valid()
      ensures extracted.Some? && extracted.value.Ok? ==> form == old(form).(startImage := Some(extracted.value.value))
      ensures extracted.None? || extracted.value.Err? ==> form == old(form)
    {
      if extracted.Some? && extracted.value.Ok? {
        form := form.(startImage := Some(extracted.value.value));
      }
    }

    /** updateUsage: add to one counter and store the record. */
    method UpdateUsage(kind: UsageKind, amount: int)
      modifies this`usage, this`store
      ensures usage == AddUsage(old(usage), kind, amount) && store == old(store).(usage := Some(usage))
    {
      var next := AddUsage(usage, kind, amount);
      usage, store := next, store.(usage := Some(next));
    }

    /** updateCoins: set and store the balance. */
    method UpdateCoins(newAmount: int)
      requires newAmount >= 0
      modifies this`coins, this`store
      ensures coins == newAmount && store == old(store).(coins := Some(newAmount))
    {
      coins, store := newAmount, store.(coins := Some(newAmount));
    }

    /** handleEarnCoins, called by the pricing modal when an ad finishes;
        `atClick` is the balance when "Watch Ad" was clicked. The corrected
        balance is credited. */
    method EarnCoins(atClick: int, amount: nat)
      requires Valid()
      modifies this`coins, this`store
      ensures Valid()
      ensures coins == EarnedBalance(atClick, old(coins), amount) && store == old(store).(coins := Some(coins))
    {
      UpdateCoins(EarnedBalance(atClick, coins, amount));
    }

    /** handleUpgrade. */
    method Upgrade()
      requires Valid()
      modifies this`isPro, this`store
      ensures Valid() && isPro && store == old(store).(pro := true)
    {
      isPro, store := true, store.(pro := true);
    }

    /** handleCloseRating: remember when the prompt was dismissed. */
    method CloseRating(now: int)
      requires Valid()
      modifies this`store, this`showRating
      ensures Valid() && store == old(store).(ratingPrompt := Some(now)) && !showRating
    {
      store, showRating := store.(ratingPrompt := Some(now)), false;
    }

    /** handleRate: the rating is remembered and never asked again. */
    method Rate()
      requires Valid()
      modifies this`store
      ensures Valid() && store == old(store).(ratingDone := true)
      ensures forall now :: !RatingDue(store.ratingDone, store.login, store.ratingPrompt, now)
    {
      store := store.(ratingDone := true);
    }

    /** The synchronous part of handleGenerate, up to sending the request.
        The generate button exists only while no generation runs. */
    method StartGenerate(confirmed: bool) returns (g: Gate)
      requires Valid() && !isGenerating
      modifies this`showPricing, this`errorMsg, this`isGenerating, this`pending
      ensures Valid()
      ensures g == GenerateGate(isPro, form.generationType, usage.veoCount, coins, confirmed,
                                IsBlank(form.prompt), Present(form.startImage))
      ensures g == OpenPricing ==> showPricing && !isGenerating && errorMsg == old(errorMsg)
      ensures g == Declined || g == Blank ==> unchanged(this)
      ensures g.Go? ==>
        && isGenerating && errorMsg.None? && showPricing == old(showPricing)
        && pending == Some(Pending(g.usingCoins, isPro, ConfigFor(form.prompt, form.aspectRatio, form.style,
                                                                   form.startImage, form.generationType), coins))
    {
      g := GenerateGate(isPro, form.generationType, usage.veoCount, coins, confirmed,
                        IsBlank(form.prompt), Present(form.startImage));
      match g {
        case OpenPricing =>
          showPricing := true;
        case Declined =>
        case Blank =>
        case Go(usingCoins) =>
          var config := ConfigFor(form.prompt, form.aspectRatio, form.style, form.startImage, form.generationType);
          errorMsg, isGenerating, pending := None, true, Some(Pending(usingCoins, isPro, config, coins));
      }
    }

    /** The rest of handleGenerate once the request settles: `result` is
        the URI from generateImage or generateVeoVideo, or the message they
        threw. A video is paid with coins or counted against the free limit;
        the new item goes first in the gallery. `id` and `now` are the UUID
        and the clock. */
    method CompleteGenerate(result: Result<string>, id: string, now: int)
      requires Valid() && isGenerating
      modifies this`coins, this`usage, this`store, this`media, this`errorMsg, this`hasKey,
               this`isGenerating, this`pending
      ensures Valid() && !isGenerating
      ensures var p := old(pending).value;
        if result.Ok? then
          && media == [GeneratedMedia(id, result.value, p.config.generateType, p.config.prompt,
                                      AspectRatioText(p.config.aspectRatio), p.config.style, now, !p.isPro)]
                      + old(media)
          && (p.config.generateType == Video && p.usingCoins ==>
                coins == PaidBalance(p.coinsAtStart, old(coins)) && usage == old(usage))
          && (p.config.generateType == Video && !p.usingCoins ==>
                usage == AddUsage(old(usage), VeoUsage, 1) && coins == old(coins))
          && (p.config.generateType == Image ==> usage == old(usage) && coins == old(coins))
          && errorMsg == old(errorMsg) && hasKey == old(hasKey)
        else
          && coins == old(coins) && usage == old(usage) && media == old(media) && store == old(store)
          && (result.msg == GeminiService.ApiKeyInvalid ==> errorMsg == Some(KeyInvalidMessage) && !hasKey)
          && (result.msg != GeminiService.ApiKeyInvalid ==>
                errorMsg == Some(if result.msg != "" then result.msg else GenerateFailed) && hasKey == old(hasKey))
    {
      var p := pending.value;
      match result {
        case Ok(uri) =>
          if p.config.generateType == Video {
            if p.usingCoins {
              UpdateCoins(PaidBalance(p.coinsAtStart, coins));
            } else {
              UpdateUsage(VeoUsage, 1);
            }
          }
          media := [GeneratedMedia(id, uri, p.config.generateType, p.config.prompt,
                                   AspectRatioText(p.config.aspectRatio), p.config.style, now, !p.isPro)] + media;
        case Err(msg) =>
          if msg == GeminiService.ApiKeyInvalid {
            errorMsg, hasKey := Some(KeyInvalidMessage), false;
          } else {
            errorMsg := Some(if msg != "" then msg else GenerateFailed);
          }
      }
      isGenerating, pending := false, None;
    }
  }

  /** From any state, a generation never makes the balance negative and
      spends exactly the cost: a paid request needs a balance of at least
      50 when it starts, and its completion takes exactly 50. */
  lemma PaidGenerationCovered(isPro: bool, veoCount: int, coins: int, promptBlank: bool, hasImage: bool)
    requires GenerateGate(isPro, Video, veoCount, coins, true, promptBlank, hasImage) == Go(true)
    ensures coins >= GenerationCost && PaidBalance(coins, coins) == coins - GenerationCost >= 0
  {
  }
}
