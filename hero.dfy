/** The typewriter headline of the hero section (src/components/HeroSection.tsx): once the section
    is in view, a 100 ms timer reveals `fullText` one character per tick. */
module Hero {

  /** The headline being typed. */
  const FullText := "Computer Science Major | Systems Programmer | DevOps Enthusiast"

  /** `s.slice(0, end)` for a non-negative `end`: the first `end` characters, or all of `s`. */
  function SliceTo(s: string, end: nat): (r: string)
    ensures |r| == if end <= |s| then end else |s|
    ensures r <= s
  {
    if end <= |s| then s[..end] else s
  }

  /** Each reveal step adds exactly the next character of the text. */
  lemma SliceStep(s: string, k: nat)
    requires k < |s|
    ensures SliceTo(s, k + 1) == SliceTo(s, k) + [s[k]]
  {
    assert s[..k + 1] == s[..k] + [s[k]];
  }

  /** The typewriter state: `text` and `currentIndex` are the component's two state variables,
      `inView` comes from the intersection observer and `timerArmed` says a tick is pending. */
  class Typewriter {
    const fullText: string
    var text: string
    var currentIndex: nat
    var inView: bool
    var timerArmed: bool

    /** `text` is always the prefix of `fullText` of length `currentIndex`, and a tick is pending
        only while the section is in view and characters remain. */
    ghost predicate Valid()
      reads this
    {
      currentIndex <= |fullText| &&
      text == fullText[..currentIndex] &&
      (timerArmed ==> inView && currentIndex < |fullText|)
    }

    /** The first render: nothing typed, not yet in view. */
    constructor ()
      ensures Valid()
      ensures fullText == FullText
      ensures text == "" && currentIndex == 0 && !inView && !timerArmed
    {
      fullText := FullText;
      text := "";
      currentIndex := 0;
      inView := false;
      timerArmed := false;
    }

    /** The effect: arm the 100 ms timer while in view and characters remain. */
    method RunEffect()
      requires Valid()
      modifies this
      ensures Valid()
      ensures text == old(text) && currentIndex == old(currentIndex) && inView == old(inView)
      ensures timerArmed == (old(timerArmed) || (inView && currentIndex < |fullText|))
    {
      if inView && currentIndex < |fullText| {
        timerArmed := true;
      }
    }

    /** The section scrolls into view; the observer triggers once, so `inView` never reverts.
        The effect depends on `inView`, so it runs again when it changes. */
    method ComeIntoView()
      requires Valid()
      modifies this
      ensures Valid()
      ensures inView
      ensures text == old(text) && currentIndex == old(currentIndex)
      ensures !old(inView) ==> timerArmed == (currentIndex < |fullText|)
      ensures old(inView) ==> unchanged(this)
    {
      if !inView {
        inView := true;
        RunEffect();
      }
    }

    /** One tick: the timer reveals one more character, and because the index moved the effect
        runs again. Out of view, or with the text complete, nothing happens. */
    method Tick()
      requires Valid()
      modifies this
      ensures Valid()
      ensures old(timerArmed) ==> currentIndex == old(currentIndex) + 1
      ensures old(timerArmed) ==> text == old(text) + [fullText[old(currentIndex)]]
      ensures old(timerArmed) ==> timerArmed == (currentIndex < |fullText|)
      ensures !old(timerArmed) ==> unchanged(this)
      ensures !old(inView) || old(currentIndex) == |fullText| ==> unchanged(this)
      ensures inView == old(inView)
    {
      if timerArmed {
        SliceStep(fullText, currentIndex);
        text := SliceTo(fullText, currentIndex + 1);
        currentIndex := currentIndex + 1;
        timerArmed := false;
        RunEffect();
      }
    }

    /** Unmounting clears the pending timeout. */
    method Teardown()
      requires Valid()
      modifies this
      ensures Valid()
      ensures !timerArmed
      ensures text == old(text) && currentIndex == old(currentIndex) && inView == old(inView)
    {
      timerArmed := false;
    }

    /** Typing is complete. */
    predicate Done()
      reads this
    {
      currentIndex == |fullText|
    }

    /** When typing is complete the whole headline is shown and no tick is pending. */
    lemma DoneShowsFullText()
      requires Valid() && Done()
      ensures text == fullText && !timerArmed
    {
    }
  }

  /** In view, |FullText| ticks type the whole headline, and one more tick changes nothing. */
  method TypingScenario() {
    var w := new Typewriter();
    w.Tick();
    assert w.text == "";
    w.ComeIntoView();
    while !w.Done()
      invariant w.Valid() && w.inView && w.fullText == FullText
      invariant w.timerArmed == !w.Done()
      decreases |w.fullText| - w.currentIndex
    {
      w.Tick();
    }
    w.DoneShowsFullText();
    assert w.text == FullText;
    w.Tick();
    assert w.text == FullText;
  }
}
