// The loading overlay: a progress bar fed by the asset loader, a one-shot
// "ready" latch that reveals the two start buttons, and the start action
// that hides the overlay and hands over to the application.
module Loading {
  import opened Geometry

  /** Math.round: the nearest integer, halves rounded up. */
  function Round(x: real): (n: int)
    ensures n as real - 0.5 <= x < n as real + 0.5
  {
    (x + 0.5).Floor
  }

  const ReadyHint: string := "Ready to explore"

  /**
   * What the overlay shows and has done: the stored progress, the latch,
   * the bar's --progress percentage, the rounded percentage text, the hint,
   * the two buttons' disabled flags, whether the button row is visible and
   * the container hidden, and the arguments of every onStart call so far.
   */
  datatype LoaderView = LoaderView(
    progress: real,
    isReady: bool,
    barPercent: real,
    shownPercent: int,
    hint: string,
    musicDisabled: bool,
    silentDisabled: bool,
    buttonsVisible: bool,
    hidden: bool,
    starts: seq<bool>)

  /** The overlay as the constructor leaves it, with the hint and button flags the page starts with. */
  function InitialView(hint: string, musicDisabled: bool, silentDisabled: bool): LoaderView
  {
    LoaderView(0.0, false, 0.0, 0, hint, musicDisabled, silentDisabled, false, false, [])
  }

  /** The view showButtons leaves. */
  function ButtonsShown(v: LoaderView): LoaderView
  {
    v.(musicDisabled := false, silentDisabled := false, buttonsVisible := true)
  }

  /** Whether updateProgress(p) fires the ready actions from view v. */
  predicate Fires(v: LoaderView, p: real)
  {
    Min(p, 100.0) >= 100.0 && !v.isReady
  }

  /** updateProgress: store and display the clamped progress; the first time it reaches 100, latch and reveal the buttons. */
  function Updated(v: LoaderView, p: real): LoaderView
  {
    var c := Min(p, 100.0);
    var shown := v.(progress := c, barPercent := c, shownPercent := Round(c));
    if c >= 100.0 && !v.isReady then ButtonsShown(shown.(isReady := true, hint := ReadyHint)) else shown
  }

  /** startExperience: disable both buttons, hide the overlay and call onStart, when there is one, with the choice. */
  function Started(v: LoaderView, withMusic: bool, hasOnStart: bool): LoaderView
  {
    v.(musicDisabled := true, silentDisabled := true, hidden := true,
       starts := if hasOnStart then v.starts + [withMusic] else v.starts)
  }

  /**
   * One update: the progress is the clamped value and never above 100, the
   * latch never resets, it is set exactly when the clamped progress reaches
   * 100, and the ready actions run exactly when it was not already set.
   */
  lemma UpdateProgressProperties(v: LoaderView, p: real)
    ensures var w := Updated(v, p);
      w.progress == Min(p, 100.0) && w.progress <= 100.0 && w.barPercent == w.progress &&
      w.shownPercent == Round(w.progress) &&
      (w.isReady <==> v.isReady || p >= 100.0) &&
      (Fires(v, p) ==> w.hint == ReadyHint && !w.musicDisabled && !w.silentDisabled && w.buttonsVisible) &&
      (!Fires(v, p) ==> w.hint == v.hint && w.musicDisabled == v.musicDisabled &&
                        w.silentDisabled == v.silentDisabled && w.buttonsVisible == v.buttonsVisible) &&
      w.hidden == v.hidden && w.starts == v.starts
  {
  }

  /** The view after a sequence of updates, in order. */
  function AfterUpdates(v: LoaderView, ps: seq<real>): LoaderView
    decreases |ps|
  {
    if |ps| == 0 then v else AfterUpdates(Updated(v, ps[0]), ps[1..])
  }

  /** How many of a sequence of updates fire the ready actions. */
  function FireCount(v: LoaderView, ps: seq<real>): nat
    decreases |ps|
  {
    if |ps| == 0 then 0
    else (if Fires(v, ps[0]) then 1 else 0) + FireCount(Updated(v, ps[0]), ps[1..])
  }

  /** After any sequence of updates the overlay is ready exactly when it was already, or some update reached 100. */
  lemma {:induction false} ReadyIffSomeUpdateReached100(v: LoaderView, ps: seq<real>)
    ensures AfterUpdates(v, ps).isReady <==> v.isReady || exists i :: 0 <= i < |ps| && ps[i] >= 100.0
    decreases |ps|
  {
    if |ps| > 0 {
      var w := Updated(v, ps[0]);
      ReadyIffSomeUpdateReached100(w, ps[1..]);
      if exists i :: 0 <= i < |ps| && ps[i] >= 100.0 {
        var i :| 0 <= i < |ps| && ps[i] >= 100.0;
        if i > 0 {
          assert ps[1..][i - 1] >= 100.0;
        }
      }
      if exists j :: 0 <= j < |ps[1..]| && ps[1..][j] >= 100.0 {
        var j :| 0 <= j < |ps[1..]| && ps[1..][j] >= 100.0;
        assert ps[j + 1] >= 100.0;
      }
    }
  }

  /**
   * The ready actions run at most once over any sequence of updates: never
   * when the overlay was already ready, and exactly once otherwise when
   * some update reaches 100.
   */
  lemma {:induction false} ReadyActionsRunOnce(v: LoaderView, ps: seq<real>)
    ensures FireCount(v, ps) <= 1
    ensures v.isReady ==> FireCount(v, ps) == 0
    ensures !v.isReady ==> (FireCount(v, ps) == 1 <==> exists i :: 0 <= i < |ps| && ps[i] >= 100.0)
    decreases |ps|
  {
    if |ps| > 0 {
      var w := Updated(v, ps[0]);
      ReadyActionsRunOnce(w, ps[1..]);
      if exists j :: 0 <= j < |ps[1..]| && ps[1..][j] >= 100.0 {
        var j :| 0 <= j < |ps[1..]| && ps[1..][j] >= 100.0;
        assert ps[j + 1] >= 100.0;
      }
      if !v.isReady && !Fires(v, ps[0]) && exists i :: 0 <= i < |ps| && ps[i] >= 100.0 {
        var i :| 0 <= i < |ps| && ps[i] >= 100.0;
        assert i > 0 && ps[1..][i - 1] >= 100.0;
      }
    }
  }

  /** Starting disables both buttons, hides the overlay and records exactly one onStart call with the choice made. */
  lemma StartExperienceProperties(v: LoaderView, withMusic: bool, hasOnStart: bool)
    ensures var w := Started(v, withMusic, hasOnStart);
      w.musicDisabled && w.silentDisabled && w.hidden &&
      (hasOnStart ==> |w.starts| == |v.starts| + 1 && w.starts[|v.starts|] == withMusic) &&
      (!hasOnStart ==> w.starts == v.starts) &&
      w.starts[..|v.starts|] == v.starts &&
      w.progress == v.progress && w.isReady == v.isReady
  {
  }

  /** Once started, later progress updates cannot re-enable the buttons: the latch is spent. */
  lemma NoReenableAfterStart(v: LoaderView, withMusic: bool, hasOnStart: bool, ps: seq<real>)
    requires v.isReady
    ensures var w := AfterUpdates(Started(v, withMusic, hasOnStart), ps);
      w.musicDisabled && w.silentDisabled && w.hidden
  {
    NoReenableWhileReady(Started(v, withMusic, hasOnStart), ps);
  }

  lemma {:induction false} NoReenableWhileReady(v: LoaderView, ps: seq<real>)
    requires v.isReady
    ensures var w := AfterUpdates(v, ps);
      w.isReady && w.musicDisabled == v.musicDisabled && w.silentDisabled == v.silentDisabled && w.hidden == v.hidden
    decreases |ps|
  {
    if |ps| > 0 {
      NoReenableWhileReady(Updated(v, ps[0]), ps[1..]);
    }
  }

  class LoadingScreen {
    /** Whether an onStart callback was given. */
    const hasOnStart: bool

    var progress: real
    var isReady: bool
    var barPercent: real
    var shownPercent: int
    var hint: string
    var musicDisabled: bool
    var silentDisabled: bool
    var buttonsVisible: bool
    var hidden: bool
    /** The argument of each onStart call, in order. */
    var starts: seq<bool>

    function View(): LoaderView
      reads this
    {
      LoaderView(progress, isReady, barPercent, shownPercent, hint, musicDisabled, silentDisabled,
                 buttonsVisible, hidden, starts)
    }

    constructor (hasOnStart: bool, hint: string, musicDisabled: bool, silentDisabled: bool)
      ensures this.hasOnStart == hasOnStart
      ensures View() == InitialView(hint, musicDisabled, silentDisabled)
    {
      this.hasOnStart := hasOnStart;
      progress, isReady := 0.0, false;
      barPercent, shownPercent := 0.0, 0;
      this.hint := hint;
      this.musicDisabled, this.silentDisabled := musicDisabled, silentDisabled;
      buttonsVisible, hidden, starts := false, false, [];
    }

    method UpdateProgress(p: real)
      modifies this
      ensures View() == Updated(old(View()), p)
    {
      progress := Min(p, 100.0);
      barPercent := progress;
      shownPercent := Round(progress);
      if progress >= 100.0 && !isReady {
        isReady := true;
        hint := ReadyHint;
        ShowButtons();
      }
    }

    method ShowButtons()
      modifies this
      ensures View() == ButtonsShown(old(View()))
    {
      musicDisabled := false;
      silentDisabled := false;
      buttonsVisible := true;
    }

    method StartExperience(withMusic: bool)
      modifies this
      ensures View() == Started(old(View()), withMusic, hasOnStart)
    {
      musicDisabled := true;
      silentDisabled := true;
      hidden := true;
      if hasOnStart {
        starts := starts + [withMusic];
      }
    }
  }
}
