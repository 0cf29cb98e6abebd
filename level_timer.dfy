/** The level clock of `LevelTimer`: it counts seconds while the level runs, and
    when the dirt cleaner reports that everything is clean it stops once, rates the
    time with one to three stars and adds the matching coins to the player's stored
    total. `Time.deltaTime` is a parameter and `PlayerPrefs` is a map. */
module Timer {
  import opened Engine

  /** The `PlayerPrefs` key of the coin total. */
  const CoinsKey: string := "Coins"

  /** `PlayerPrefs.GetInt(key, default)`. */
  function GetInt(prefs: map<string, int>, key: string, default: int): (r: int)
    ensures key in prefs ==> r == prefs[key]
    ensures key !in prefs ==> r == default
  {
    if key in prefs then prefs[key] else default
  }

  /** Reading a key just written gives the value written, with any default;
      writing one key leaves every other key as it read before. */
  lemma GetAfterSet(prefs: map<string, int>, key: string, value: int, default: int, other: string)
    ensures GetInt(prefs[key := value], key, default) == value
    ensures other != key ==> GetInt(prefs[key := value], other, default) == GetInt(prefs, other, default)
  {
  }

  /** `CalculateStars`: three stars within `timeFor3Stars`, two within
      `timeFor2Stars`, one otherwise. */
  function CalculateStars(elapsed: real, timeFor3Stars: real, timeFor2Stars: real): (r: int)
    ensures 1 <= r <= 3
    ensures r == 3 <==> elapsed <= timeFor3Stars
    ensures r == 2 <==> timeFor3Stars < elapsed <= timeFor2Stars
    ensures r == 1 <==> elapsed > timeFor3Stars && elapsed > timeFor2Stars
  {
    if elapsed <= timeFor3Stars then 3
    else if elapsed <= timeFor2Stars then 2
    else 1
  }

  /** Taking longer never earns more stars. */
  lemma StarsNonIncreasing(e1: real, e2: real, timeFor3Stars: real, timeFor2Stars: real)
    requires e1 <= e2
    ensures CalculateStars(e2, timeFor3Stars, timeFor2Stars) <= CalculateStars(e1, timeFor3Stars, timeFor2Stars)
  {
  }

  /** The coins one rating pays: three stars, two stars, anything else. */
  function CoinsForStars(stars: int, coinsFor3Stars: int, coinsFor2Stars: int, coinsFor1Star: int): (r: int)
    ensures stars == 3 ==> r == coinsFor3Stars
    ensures stars == 2 ==> r == coinsFor2Stars
    ensures stars != 3 && stars != 2 ==> r == coinsFor1Star
  {
    if stars == 3 then coinsFor3Stars
    else if stars == 2 then coinsFor2Stars
    else coinsFor1Star
  }

  /** With pay that does not fall with the rating, taking longer never pays more
      coins, and finishing within the three-star time pays the three-star
      amount. */
  lemma FasterEarnsMore(e1: real, e2: real, timeFor3Stars: real, timeFor2Stars: real,
                        coinsFor3Stars: int, coinsFor2Stars: int, coinsFor1Star: int)
    requires e1 <= e2 && coinsFor1Star <= coinsFor2Stars <= coinsFor3Stars
    ensures CoinsForStars(CalculateStars(e2, timeFor3Stars, timeFor2Stars), coinsFor3Stars, coinsFor2Stars, coinsFor1Star) <=
            CoinsForStars(CalculateStars(e1, timeFor3Stars, timeFor2Stars), coinsFor3Stars, coinsFor2Stars, coinsFor1Star)
    ensures e1 <= timeFor3Stars ==>
      CoinsForStars(CalculateStars(e1, timeFor3Stars, timeFor2Stars), coinsFor3Stars, coinsFor2Stars, coinsFor1Star) ==
      coinsFor3Stars
  {
    StarsNonIncreasing(e1, e2, timeFor3Stars, timeFor2Stars);
  }

  /** The slider position: elapsed time as a fraction of `timeFor2Stars` (of 1 when
      that is not positive), clamped to [0,1]. */
  function SliderValue(elapsed: real, timeFor2Stars: real): (r: real)
    ensures 0.0 <= r <= 1.0
    ensures timeFor2Stars > 0.0 && 0.0 <= elapsed <= timeFor2Stars ==> r * timeFor2Stars == elapsed
    ensures timeFor2Stars > 0.0 && elapsed >= timeFor2Stars ==> r == 1.0
    ensures timeFor2Stars <= 0.0 ==> r == Clamp01(elapsed)
  {
    var maxForSlider := if timeFor2Stars <= 0.0 then 1.0 else timeFor2Stars;
    Clamp01(elapsed / maxForSlider)
  }

  /** The slider never moves back as time goes on. */
  lemma SliderMonotone(e1: real, e2: real, timeFor2Stars: real)
    requires e1 <= e2
    ensures SliderValue(e1, timeFor2Stars) <= SliderValue(e2, timeFor2Stars)
  {
    var m := if timeFor2Stars <= 0.0 then 1.0 else timeFor2Stars;
    DivMonotone(e1, e2, m);
  }

  lemma DivMonotone(a: real, b: real, m: real)
    requires a <= b && m > 0.0
    ensures a / m <= b / m
  {
    assert b / m - a / m == (b - a) / m;
  }

  class LevelTimer {
    const coinsFor3Stars: int
    const coinsFor2Stars: int
    const coinsFor1Star: int
    const timeFor3Stars: real
    const timeFor2Stars: real
    /** Which optional UI references are set: the timer text, the slider, the coins
        text, the stars image, the next button, and the three star sprites. */
    const hasTimerText: bool
    const hasSlider: bool
    const hasCoinsText: bool
    const hasStarsImage: bool
    const hasNextButton: bool
    const hasSprite: seq<bool>

    var elapsed: real
    var running: bool
    var finished: bool
    var prefs: map<string, int>
    /** What the UI shows: whole seconds, slider value, coin total, which star
        sprite (0 for none) and whether the image is enabled, the next button. */
    var timerSeconds: int
    var sliderValue: real
    var coinsShown: int
    var starSprite: nat
    var starsEnabled: bool
    var nextButtonActive: bool

    ghost predicate Valid()
      reads this
    {
      |hasSprite| == 4 && (finished ==> !running) &&
      IsInt32(coinsFor3Stars) && IsInt32(coinsFor2Stars) && IsInt32(coinsFor1Star) &&
      (CoinsKey in prefs ==> IsInt32(prefs[CoinsKey]))
    }

    /** The field initialisers followed by `Start`: the clock starts at zero and runs,
        the stars and the next button are hidden. */
    constructor (coinsFor3Stars: int, coinsFor2Stars: int, coinsFor1Star: int,
                 timeFor3Stars: real, timeFor2Stars: real,
                 hasTimerText: bool, hasSlider: bool, hasCoinsText: bool, hasStarsImage: bool, hasNextButton: bool,
                 sprite1: bool, sprite2: bool, sprite3: bool, prefs: map<string, int>)
      requires IsInt32(coinsFor3Stars) && IsInt32(coinsFor2Stars) && IsInt32(coinsFor1Star)
      requires CoinsKey in prefs ==> IsInt32(prefs[CoinsKey])
      ensures Valid()
      ensures this.coinsFor3Stars == coinsFor3Stars && this.coinsFor2Stars == coinsFor2Stars
      ensures this.coinsFor1Star == coinsFor1Star
      ensures this.timeFor3Stars == timeFor3Stars && this.timeFor2Stars == timeFor2Stars
      ensures this.hasTimerText == hasTimerText && this.hasSlider == hasSlider && this.hasCoinsText == hasCoinsText
      ensures this.hasStarsImage == hasStarsImage && this.hasNextButton == hasNextButton
      ensures hasSprite == [false, sprite1, sprite2, sprite3] && this.prefs == prefs
      ensures elapsed == 0.0 && running && !finished
      ensures hasSlider ==> sliderValue == 0.0
      ensures hasCoinsText ==> coinsShown == GetInt(prefs, CoinsKey, 0)
      ensures !starsEnabled && !nextButtonActive
    {
      this.coinsFor3Stars := coinsFor3Stars;
      this.coinsFor2Stars := coinsFor2Stars;
      this.coinsFor1Star := coinsFor1Star;
      this.timeFor3Stars := timeFor3Stars;
      this.timeFor2Stars := timeFor2Stars;
      this.hasTimerText := hasTimerText;
      this.hasSlider := hasSlider;
      this.hasCoinsText := hasCoinsText;
      this.hasStarsImage := hasStarsImage;
      this.hasNextButton := hasNextButton;
      hasSprite := [false, sprite1, sprite2, sprite3];
      this.prefs := prefs;
      elapsed := 0.0;
      running := false;
      finished := false;
      timerSeconds := 0;
      sliderValue := 0.0;
      coinsShown := 0;
      starSprite := 0;
      starsEnabled := false;
      nextButtonActive := false;
      new;
      UpdateCoinsUI();
      elapsed := 0.0;
      running := true;
      UpdateUI();
      starsEnabled := false;
      nextButtonActive := false;
    }

    /** `UpdateUI`: the text shows the whole seconds, the slider the elapsed
        fraction. */
    method UpdateUI()
      modifies this`timerSeconds, this`sliderValue
      ensures hasTimerText ==> timerSeconds == elapsed.Floor
      ensures !hasTimerText ==> timerSeconds == old(timerSeconds)
      ensures hasSlider ==> sliderValue == SliderValue(elapsed, timeFor2Stars)
      ensures !hasSlider ==> sliderValue == old(sliderValue)
    {
      if hasTimerText {
        timerSeconds := elapsed.Floor;
      }
      if hasSlider {
        var maxForSlider := timeFor2Stars;
        if maxForSlider <= 0.0 {
          maxForSlider := 1.0;
        }
        sliderValue := Clamp01(elapsed / maxForSlider);
      }
    }

    /** `Update`: the clock advances by the frame time only while running and not
        finished. */
    method Update(deltaTime: real)
      requires Valid()
      modifies this`elapsed, this`timerSeconds, this`sliderValue
      ensures Valid()
      ensures running && !finished ==>
        elapsed == old(elapsed) + deltaTime &&
        (hasTimerText ==> timerSeconds == elapsed.Floor) && (!hasTimerText ==> timerSeconds == old(timerSeconds)) &&
        (hasSlider ==> sliderValue == SliderValue(elapsed, timeFor2Stars)) &&
        (!hasSlider ==> sliderValue == old(sliderValue))
      ensures !running || finished ==>
        (elapsed == old(elapsed) && timerSeconds == old(timerSeconds) && sliderValue == old(sliderValue))
      ensures deltaTime >= 0.0 ==> elapsed >= old(elapsed)
    {
      if !running || finished {
        return;
      }
      elapsed := elapsed + deltaTime;
      UpdateUI();
    }

    /** `UpdateCoinsUI`: the coins text shows the stored total. */
    method UpdateCoinsUI()
      modifies this`coinsShown
      ensures hasCoinsText ==> coinsShown == GetInt(prefs, CoinsKey, 0)
      ensures !hasCoinsText ==> coinsShown == old(coinsShown)
    {
      if !hasCoinsText {
        return;
      }
      coinsShown := GetInt(prefs, CoinsKey, 0);
    }

    /** `AddCoinsForStars`: the stored total (0 when absent) grows by the rating's
        coins, with C#'s 32-bit wrap-around. */
    method AddCoinsForStars(stars: int)
      requires Valid()
      modifies this`prefs, this`coinsShown
      ensures Valid()
      ensures prefs == old(prefs)[CoinsKey :=
        Wrap32(GetInt(old(prefs), CoinsKey, 0) + CoinsForStars(stars, coinsFor3Stars, coinsFor2Stars, coinsFor1Star))]
      ensures hasCoinsText ==> coinsShown == prefs[CoinsKey]
      ensures !hasCoinsText ==> coinsShown == old(coinsShown)
    {
      var add := 0;
      if stars == 3 {
        add := coinsFor3Stars;
      } else if stars == 2 {
        add := coinsFor2Stars;
      } else {
        add := coinsFor1Star;
      }
      var current := GetInt(prefs, CoinsKey, 0);
      current := Wrap32(current + add);
      prefs := prefs[CoinsKey := current];
      UpdateCoinsUI();
    }

    /** `ApplyStarSprite`: the image shows the rating's sprite and is enabled exactly
        when that sprite is set. */
    method ApplyStarSprite(starCount: int)
      requires Valid()
      modifies this`starSprite, this`starsEnabled
      ensures hasStarsImage ==> starSprite == (if starCount == 3 || starCount == 2 then starCount else 1)
      ensures hasStarsImage ==> starsEnabled == hasSprite[starSprite]
      ensures !hasStarsImage ==> starSprite == old(starSprite) && starsEnabled == old(starsEnabled)
    {
      if !hasStarsImage {
        return;
      }
      var s := 1;
      if starCount == 3 {
        s := 3;
      } else if starCount == 2 {
        s := 2;
      }
      starSprite := s;
      starsEnabled := hasSprite[s];
    }

    /** `OnAllCleaned`: the first call stops the clock for good, shows the rating and
        the next button and pays the coins; every later call changes nothing. */
    method OnAllCleaned()
      requires Valid()
      modifies this`finished, this`running, this`prefs, this`coinsShown, this`starSprite, this`starsEnabled,
        this`nextButtonActive
      ensures Valid()
      ensures old(finished) ==>
        running == old(running) && prefs == old(prefs) && coinsShown == old(coinsShown) &&
        starSprite == old(starSprite) && starsEnabled == old(starsEnabled) &&
        nextButtonActive == old(nextButtonActive)
      ensures finished && !running
      ensures !old(finished) ==>
        var stars := CalculateStars(elapsed, timeFor3Stars, timeFor2Stars);
        prefs == old(prefs)[CoinsKey :=
          Wrap32(GetInt(old(prefs), CoinsKey, 0) + CoinsForStars(stars, coinsFor3Stars, coinsFor2Stars, coinsFor1Star))] &&
        (hasStarsImage ==> starSprite == stars && starsEnabled == hasSprite[stars]) &&
        (!hasStarsImage ==> starSprite == old(starSprite) && starsEnabled == old(starsEnabled)) &&
        (hasCoinsText ==> coinsShown == prefs[CoinsKey]) && (!hasCoinsText ==> coinsShown == old(coinsShown)) &&
        nextButtonActive == (old(nextButtonActive) || hasNextButton)
    {
      if finished {
        return;
      }
      finished := true;
      running := false;
      var stars := CalculateStars(elapsed, timeFor3Stars, timeFor2Stars);
      ApplyStarSprite(stars);
      AddCoinsForStars(stars);
      if hasNextButton {
        nextButtonActive := true;
      }
    }
  }
}
