/**
 * What an anime cell shows: the title, the genres line, the information
 * line (type, main studio, source), the countdown to the next episode or
 * the aired status, and whether the in-library marker is visible. Images,
 * the rating line, fonts and layout sizes are not part of it.
 */
module AnimeCellView {
  import opened Foundation
  import opened AnimeModel

  const SecondsPerHour: int := 3600
  const SecondsPerMinute: int := 60

  /** The colours the cell picks between. */
  datatype Color = Pumpkin | White | BelizeHole | Nephritis | ClearColor | PlanningColor

  /** The day, hour and minute components of the time left until a date. */
  datatype Eta = Eta(days: int, hours: int, minutes: int)

  /** `etaForDate(nextDate)` with `now` the current time: the calendar's
      day, hour and minute components from `now` to `nextDate`. */
  function EtaForDate(now: Date, nextDate: Date): Eta
  {
    var d := nextDate - now;
    var days := TruncatingDivision(d, SecondsPerDay);
    var afterDays := d - days * SecondsPerDay;
    var hours := TruncatingDivision(afterDays, SecondsPerHour);
    var afterHours := afterDays - hours * SecondsPerHour;
    Eta(days, hours, TruncatingDivision(afterHours, SecondsPerMinute))
  }

  /** The components add up to the time left, up to less than a minute;
      hours stay under a day and minutes under an hour; every component has
      the sign of the time left. */
  lemma EtaForDateSpec(now: Date, nextDate: Date)
    ensures var e, d := EtaForDate(now, nextDate), nextDate - now;
      var seconds := d - (e.days * SecondsPerDay + e.hours * SecondsPerHour + e.minutes * SecondsPerMinute);
      && -SecondsPerMinute < seconds < SecondsPerMinute
      && -24 < e.hours < 24 && -60 < e.minutes < 60
      && (d >= 0 ==> e.days >= 0 && e.hours >= 0 && e.minutes >= 0 && seconds >= 0)
      && (d <= 0 ==> e.days <= 0 && e.hours <= 0 && e.minutes <= 0 && seconds <= 0)
  {
    var d := nextDate - now;
    TruncatingDivisionSpec(d, SecondsPerDay);
    var afterDays := d - TruncatingDivision(d, SecondsPerDay) * SecondsPerDay;
    TruncatingDivisionSpec(afterDays, SecondsPerHour);
    var afterHours := afterDays - TruncatingDivision(afterDays, SecondsPerHour) * SecondsPerHour;
    TruncatingDivisionSpec(afterHours, SecondsPerMinute);
  }

  /** The countdown text: days, hours and minutes, starting at the largest
      component that is not zero. */
  function EtaTime(eta: Eta): string
  {
    if eta.days != 0 then
      Description(eta.days) + "d " + Description(eta.hours) + "h " + Description(eta.minutes) + "m"
    else if eta.hours != 0 then
      Description(eta.hours) + "h " + Description(eta.minutes) + "m"
    else
      Description(eta.minutes) + "m"
  }

  /** The countdown names days exactly when there is a day component, and
      hours exactly when there is a day or an hour component; it always
      ends with the minutes. */
  lemma EtaTimeUnits(eta: Eta)
    ensures 'd' in EtaTime(eta) <==> eta.days != 0
    ensures 'h' in EtaTime(eta) <==> eta.days != 0 || eta.hours != 0
    ensures var s := EtaTime(eta);
      |s| >= 2 && s[|s| - 1] == 'm' && ParseInt(s[|s| - 1 - |Description(eta.minutes)|..|s| - 1]) == Some(eta.minutes)
  {
    var dd, dh, dm := Description(eta.days), Description(eta.hours), Description(eta.minutes);
    assert 'd' !in dd && 'd' !in dh && 'd' !in dm && 'h' !in dd && 'h' !in dh && 'h' !in dm;
    var s := EtaTime(eta);
    assert s[|s| - 1 - |dm|..|s| - 1] == dm;
    DescriptionRoundTrip(eta.minutes);
  }

  /** The days and hours the countdown shows read back in front of their
      unit letters. */
  lemma EtaTimeReadsBack(eta: Eta)
    ensures var s, k := EtaTime(eta), |Description(eta.days)|;
      eta.days != 0 ==> |s| > k && ParseInt(s[..k]) == Some(eta.days) && s[k] == 'd'
    ensures var s, j, k := EtaTime(eta), |Description(eta.days)| + 2, |Description(eta.hours)|;
      eta.days != 0 ==> |s| > j + k && ParseInt(s[j..j + k]) == Some(eta.hours) && s[j + k] == 'h'
    ensures var s, k := EtaTime(eta), |Description(eta.hours)|;
      eta.days == 0 && eta.hours != 0 ==> |s| > k && ParseInt(s[..k]) == Some(eta.hours) && s[k] == 'h'
  {
    var dd, dh, dm := Description(eta.days), Description(eta.hours), Description(eta.minutes);
    var s := EtaTime(eta);
    if eta.days != 0 {
      var rest := dh + "h " + dm + "m";
      assert s == dd + "d " + rest;
      assert s[..|dd|] == dd;
      assert s[|dd| + 2..] == rest;
      assert rest[..|dh|] == dh;
      assert s[|dd| + 2..|dd| + 2 + |dh|] == dh;
      DescriptionRoundTrip(eta.days);
      DescriptionRoundTrip(eta.hours);
    } else if eta.hours != 0 {
      assert s[..|dh|] == dh;
      DescriptionRoundTrip(eta.hours);
    }
  }

  /** The colour that marks how soon the episode airs: more than a day,
      more than an hour, or less. */
  function EtaTimeColor(eta: Eta): Color
  {
    if eta.days != 0 then BelizeHole else if eta.hours != 0 then Nephritis else Pumpkin
  }

  /** The eta label's text colour and background. */
  function EtaLabelColors(eta: Eta, showLibraryEta: bool): (Color, Color)
  {
    var accent := if eta.days == 0 && eta.hours != 0 then Nephritis else BelizeHole;
    if showLibraryEta then (White, accent) else (accent, ClearColor)
  }

  /** Both label styles use the same accent: the library style as a
      background behind white text, the plain style as the text colour on a
      clear background. The accent differs from the time label's colour
      only for an episode less than an hour away. */
  lemma EtaLabelColorsAgree(eta: Eta)
    ensures EtaLabelColors(eta, true).1 == EtaLabelColors(eta, false).0
    ensures EtaLabelColors(eta, true).0 == White && EtaLabelColors(eta, false).1 == ClearColor
    ensures EtaLabelColors(eta, false).0 == EtaTimeColor(eta) <==> eta.days != 0 || eta.hours != 0
  {
  }

  /** The eta label for an episode still to air. */
  function EtaLabelText(nextEpisode: int, etaTime: string, showLibraryEta: bool): string
  {
    if showLibraryEta then " Ep " + Description(nextEpisode) + " - " + etaTime + " "
    else "Ep " + Description(nextEpisode) + " - " + etaTime
  }

  /** The library style pads the plain label with one space on each side,
      and the plain label ends with the countdown. */
  lemma EtaLabelStyles(nextEpisode: int, etaTime: string)
    ensures EtaLabelText(nextEpisode, etaTime, true) == " " + EtaLabelText(nextEpisode, etaTime, false) + " "
    ensures var s := EtaLabelText(nextEpisode, etaTime, false);
      |s| >= |etaTime| && s[|s| - |etaTime|..] == etaTime
    ensures var s := EtaLabelText(nextEpisode, etaTime, false);
      |s| >= 3 + |Description(nextEpisode)| && ParseInt(s[3..3 + |Description(nextEpisode)|]) == Some(nextEpisode)
  {
    var s := EtaLabelText(nextEpisode, etaTime, false);
    assert s[3..3 + |Description(nextEpisode)|] == Description(nextEpisode);
    assert s[|s| - |etaTime|..] == etaTime;
    DescriptionRoundTrip(nextEpisode);
  }

  /** The eta label when the latest episode is shown as aired. */
  function AiredEtaLabelText(nextEpisode: int, showLibraryEta: bool): string
  {
    if showLibraryEta then " Ep" + Description(nextEpisode - 1) + " Aired "
    else "Ep " + Description(nextEpisode - 1) + " - Aired"
  }

  /** The poster's time label when the latest episode is shown as aired. */
  function AiredEtaTimeText(nextEpisode: int): string
  {
    "Ep" + Description(nextEpisode - 1) + " Aired"
  }

  /** The aired texts name the episode before `nextEpisode`, the last one
      that aired. */
  lemma AiredTextsNamePreviousEpisode(nextEpisode: int)
    ensures var s, k := AiredEtaLabelText(nextEpisode, false), |Description(nextEpisode - 1)|;
      |s| >= 3 + k && ParseInt(s[3..3 + k]) == Some(nextEpisode - 1)
    ensures var s, k := AiredEtaLabelText(nextEpisode, true), |Description(nextEpisode - 1)|;
      |s| >= 3 + k && ParseInt(s[3..3 + k]) == Some(nextEpisode - 1)
    ensures var s, k := AiredEtaTimeText(nextEpisode), |Description(nextEpisode - 1)|;
      |s| >= 2 + k && ParseInt(s[2..2 + k]) == Some(nextEpisode - 1)
  {
    var n := Description(nextEpisode - 1);
    assert AiredEtaLabelText(nextEpisode, false)[3..3 + |n|] == n;
    assert AiredEtaLabelText(nextEpisode, true)[3..3 + |n|] == n;
    assert AiredEtaTimeText(nextEpisode)[2..2 + |n|] == n;
    DescriptionRoundTrip(nextEpisode - 1);
  }

  /** The poster's time label for a title with no next episode. */
  function AiringStatusText(status: string): (string, Color)
  {
    if AnimeStatusFromRaw(status) == Some(FinishedAiring) then ("Aired", BelizeHole)
    else ("Not aired", PlanningColor)
  }

  lemma AiringStatusTextSpec(status: string)
    ensures AiringStatusText(status).0 == "Aired" <==> status == FinishedAiring.RawValue()
    ensures AiringStatusText(status).0 != "Aired" ==> AiringStatusText(status) == ("Not aired", PlanningColor)
  {
  }

  /** `updateInformationLabel`: the type, the first studio's name (or "?"
      when there is none), and the source when it is known and not empty,
      separated by " · ". */
  function InformationText(anime: Anime): string
  {
    var main := if |anime.studio| > 0 then anime.studio[0].studioName else "?";
    var information := anime.animeType + " · " + main;
    if anime.source.Some? && |anime.source.value| != 0 then information + " · " + anime.source.value
    else information
  }

  lemma InformationTextSpec(anime: Anime)
    ensures var s, t := InformationText(anime), anime.animeType + " · ";
      |s| >= |t| && s[..|t|] == t
    ensures var s, main := InformationText(anime), if |anime.studio| > 0 then anime.studio[0].studioName else "?";
      var start := |anime.animeType| + 3;
      |s| >= start + |main| && s[start..start + |main|] == main
    ensures var s := InformationText(anime);
      anime.source.Some? && |anime.source.value| != 0 ==>
        var tail := " · " + anime.source.value;
        |s| >= |tail| && s[|s| - |tail|..] == tail
    ensures anime.source.None? || |anime.source.value| == 0 ==>
      |InformationText(anime)| == |anime.animeType| + 3
        + |if |anime.studio| > 0 then anime.studio[0].studioName else "?"|
    ensures anime.source.Some? && |anime.source.value| != 0 ==>
      |InformationText(anime)| == |anime.animeType| + 3
        + |if |anime.studio| > 0 then anime.studio[0].studioName else "?"| + 3 + |anime.source.value|
  {
    var s := InformationText(anime);
    var t := anime.animeType + " · ";
    var main := if |anime.studio| > 0 then anime.studio[0].studioName else "?";
    assert s[..|t|] == t;
    assert s[|t|..|t| + |main|] == main;
    if anime.source.Some? && |anime.source.value| != 0 {
      var tail := " · " + anime.source.value;
      assert s[|s| - |tail|..] == tail;
    }
  }

  /** The progress that decides the in-library marker: the public one for
      another user's list, the user's own otherwise. */
  function LibraryProgress(anime: Anime, publicAnime: bool): Option<AnimeProgress>
    reads anime
  {
    if publicAnime then anime.publicProgress else anime.progress
  }

  class AnimeCell {
    var titleText: string
    var genresText: string
    var informationText: string
    var etaText: string
    var etaTextColor: Color
    var etaBackgroundColor: Color
    var etaTimeText: string
    var etaTimeTextColor: Color
    var nextEpisodeNumberText: string
    var posterEpisodeTitleText: string
    var posterDimHidden: bool
    var inLibraryHidden: bool

    constructor ()
      ensures titleText == "" && genresText == "" && informationText == "" && etaText == ""
      ensures etaTextColor == ClearColor && etaBackgroundColor == ClearColor
      ensures etaTimeText == "" && etaTimeTextColor == ClearColor
      ensures nextEpisodeNumberText == "" && posterEpisodeTitleText == ""
      ensures !posterDimHidden && !inLibraryHidden
    {
      titleText, genresText, informationText, etaText := "", "", "", "";
      etaTextColor, etaBackgroundColor := ClearColor, ClearColor;
      etaTimeText, etaTimeTextColor := "", ClearColor;
      nextEpisodeNumberText, posterEpisodeTitleText := "", "";
      posterDimHidden, inLibraryHidden := false, false;
    }

    /** The countdown branch of `configureWithAnime`: the episode still to
        air and the time left until it. */
    method ShowCountdown(nextEpisode: int, eta: Eta, showLibraryEta: bool)
      modifies this
      ensures etaTimeText == EtaTime(eta)
      ensures etaText == EtaLabelText(nextEpisode, EtaTime(eta), showLibraryEta)
      ensures (etaTextColor, etaBackgroundColor) == EtaLabelColors(eta, showLibraryEta)
      ensures etaTimeTextColor == EtaTimeColor(eta)
      ensures titleText == old(titleText) && genresText == old(genresText)
      ensures informationText == old(informationText) && inLibraryHidden == old(inLibraryHidden)
      ensures nextEpisodeNumberText == old(nextEpisodeNumberText)
      ensures posterEpisodeTitleText == old(posterEpisodeTitleText) && posterDimHidden == old(posterDimHidden)
    {
      var days, hours, minutes := eta.days, eta.hours, eta.minutes;
      var etaTime: string;
      if days != 0 {
        etaTime := Description(days) + "d " + Description(hours) + "h " + Description(minutes) + "m";
        if showLibraryEta {
          etaTextColor, etaBackgroundColor := White, BelizeHole;
        } else {
          etaTextColor, etaBackgroundColor := BelizeHole, ClearColor;
        }
        etaTimeTextColor := BelizeHole;
      } else if hours != 0 {
        etaTime := Description(hours) + "h " + Description(minutes) + "m";
        if showLibraryEta {
          etaTextColor, etaBackgroundColor := White, Nephritis;
        } else {
          etaTextColor, etaBackgroundColor := Nephritis, ClearColor;
        }
        etaTimeTextColor := Nephritis;
      } else {
        etaTime := Description(minutes) + "m";
        if showLibraryEta {
          etaTextColor, etaBackgroundColor := White, BelizeHole;
        } else {
          etaTextColor, etaBackgroundColor := BelizeHole, ClearColor;
        }
        etaTimeTextColor := Pumpkin;
      }

      if showLibraryEta {
        etaText := " Ep " + Description(nextEpisode) + " - " + etaTime + " ";
      } else {
        etaText := "Ep " + Description(nextEpisode) + " - " + etaTime;
      }
      etaTimeText := etaTime;
    }

    /** The aired branch of `configureWithAnime`. */
    method ShowAired(nextEpisode: int, showLibraryEta: bool)
      modifies this
      ensures etaText == AiredEtaLabelText(nextEpisode, showLibraryEta)
      ensures etaTimeText == AiredEtaTimeText(nextEpisode)
      ensures etaTextColor == Pumpkin && etaTimeTextColor == Pumpkin
      ensures etaBackgroundColor == old(etaBackgroundColor)
      ensures titleText == old(titleText) && genresText == old(genresText)
      ensures informationText == old(informationText) && inLibraryHidden == old(inLibraryHidden)
      ensures nextEpisodeNumberText == old(nextEpisodeNumberText)
      ensures posterEpisodeTitleText == old(posterEpisodeTitleText) && posterDimHidden == old(posterDimHidden)
    {
      etaTextColor := Pumpkin;
      etaTimeTextColor := Pumpkin;
      if showLibraryEta {
        etaText := " Ep" + Description(nextEpisode - 1) + " Aired ";
      } else {
        etaText := "Ep " + Description(nextEpisode - 1) + " - Aired";
      }
      etaTimeText := "Ep" + Description(nextEpisode - 1) + " Aired";
    }

    /** The branch of `configureWithAnime` for a title with no next
        episode: the poster shows whether it finished airing. */
    method ShowNotAiring(status: string)
      modifies this
      ensures etaText == "" && nextEpisodeNumberText == "" && posterEpisodeTitleText == "" && posterDimHidden
      ensures (etaTimeText, etaTimeTextColor) == AiringStatusText(status)
      ensures etaTextColor == old(etaTextColor) && etaBackgroundColor == old(etaBackgroundColor)
      ensures titleText == old(titleText) && genresText == old(genresText)
      ensures informationText == old(informationText) && inLibraryHidden == old(inLibraryHidden)
    {
      etaText := "";
      nextEpisodeNumberText := "";
      posterEpisodeTitleText := "";
      posterDimHidden := true;
      var airingStatus := AnimeStatusFromRaw(status);
      if airingStatus.Some? && airingStatus.value == FinishedAiring {
        etaTimeTextColor := BelizeHole;
        etaTimeText := "Aired";
      } else {
        etaTimeTextColor := PlanningColor;
        etaTimeText := "Not aired";
      }
    }

    /** The branch of `configureWithAnime` for a title with a next episode:
        the aired texts or the countdown to `nextEpisodeDate`, then the
        episode number on the poster. */
    method ShowNextEpisode(nextEpisode: int, nextEpisodeDate: Date, showEtaAsAired: bool,
                           showLibraryEta: bool, now: Date)
      modifies this
      ensures nextEpisodeNumberText == Description(nextEpisode)
      ensures posterEpisodeTitleText == "Episode" && !posterDimHidden
      ensures showEtaAsAired ==>
        && etaText == AiredEtaLabelText(nextEpisode, showLibraryEta)
        && etaTimeText == AiredEtaTimeText(nextEpisode)
        && etaTextColor == Pumpkin && etaTimeTextColor == Pumpkin
        && etaBackgroundColor == old(etaBackgroundColor)
      ensures !showEtaAsAired ==>
        var eta := EtaForDate(now, nextEpisodeDate);
        && etaTimeText == EtaTime(eta)
        && etaText == EtaLabelText(nextEpisode, EtaTime(eta), showLibraryEta)
        && (etaTextColor, etaBackgroundColor) == EtaLabelColors(eta, showLibraryEta)
        && etaTimeTextColor == EtaTimeColor(eta)
      ensures titleText == old(titleText) && genresText == old(genresText)
      ensures informationText == old(informationText) && inLibraryHidden == old(inLibraryHidden)
    {
      if showEtaAsAired {
        ShowAired(nextEpisode, showLibraryEta);
      } else {
        var eta := EtaForDate(now, nextEpisodeDate);
        ShowCountdown(nextEpisode, eta, showLibraryEta);
      }
      nextEpisodeNumberText := Description(nextEpisode);
      posterEpisodeTitleText := "Episode";
      posterDimHidden := false;
    }

    /** `configureWithAnime`, with `now` the current time the countdown is
        measured from. A property a branch does not set keeps the value the
        reused cell had. */
    method ConfigureWithAnime(anime: Anime, showEtaAsAired: bool, showLibraryEta: bool,
                              publicAnime: bool, now: Date)
      modifies this
      ensures titleText == anime.title && genresText == Join(anime.genres, ", ")
      ensures informationText == InformationText(anime)
      ensures inLibraryHidden <==> LibraryProgress(anime, publicAnime).None?
      ensures anime.nextEpisode.Some? ==>
        && nextEpisodeNumberText == Description(anime.nextEpisode.value)
        && posterEpisodeTitleText == "Episode" && !posterDimHidden
      ensures anime.nextEpisode.Some? && showEtaAsAired ==>
        && etaText == AiredEtaLabelText(anime.nextEpisode.value, showLibraryEta)
        && etaTimeText == AiredEtaTimeText(anime.nextEpisode.value)
        && etaTextColor == Pumpkin && etaTimeTextColor == Pumpkin
        && etaBackgroundColor == old(etaBackgroundColor)
      ensures anime.nextEpisode.Some? && !showEtaAsAired ==>
        var eta := EtaForDate(now, anime.nextEpisodeDate);
        && etaTimeText == EtaTime(eta)
        && etaText == EtaLabelText(anime.nextEpisode.value, EtaTime(eta), showLibraryEta)
        && (etaTextColor, etaBackgroundColor) == EtaLabelColors(eta, showLibraryEta)
        && etaTimeTextColor == EtaTimeColor(eta)
      ensures anime.nextEpisode.None? ==>
        && etaText == "" && nextEpisodeNumberText == "" && posterEpisodeTitleText == "" && posterDimHidden
        && (etaTimeText, etaTimeTextColor) == AiringStatusText(anime.status)
        && etaTextColor == old(etaTextColor) && etaBackgroundColor == old(etaBackgroundColor)
    {
      titleText := anime.title;
      genresText := Join(anime.genres, ", ");
      informationText := InformationText(anime);

      if anime.nextEpisode.Some? {
        ShowNextEpisode(anime.nextEpisode.value, anime.nextEpisodeDate, showEtaAsAired, showLibraryEta, now);
      } else {
        ShowNotAiring(anime.status);
      }

      var progress := if publicAnime then anime.publicProgress else anime.progress;
      if progress.Some? {
        inLibraryHidden := false;
      } else {
        inLibraryHidden := true;
      }
    }
  }
}
