/** The onboarding pager: which of the three static pages is shown, and what
    the Previous and Next buttons do to it. */
module Onboarding {

  /** The animation resource each page shows. */
  datatype RawResource = First | Second | Third

  datatype OnboardingPage = OnboardingPage(title: string, description: string, rawRes: RawResource)

  const OnboardingPages: seq<OnboardingPage> := [
    OnboardingPage("Schedule quest and observe your growth",
      "View patient records, history, and reports in one place.", First),
    OnboardingPage("Smart Appointments",
      "Track schedules and manage consultations efficiently.", Second),
    OnboardingPage("Secure & Reliable",
      "All medical data is encrypted and securely stored.", Third)
  ]

  /** The list's last index. */
  const LastIndex: int := |OnboardingPages| - 1

  predicate InBounds(page: int) { 0 <= page <= LastIndex }

  datatype Button = PreviousButton | NextButton

  /** One click at `page`: the new page, and whether `onFinished` was called. */
  function Press(page: int, b: Button): (int, bool)
  {
    match b
    case PreviousButton => (if page > 0 then page - 1 else page, false)
    case NextButton => if page == LastIndex then (page, true) else (page + 1, false)
  }

  /** No click leaves the pages' index range. */
  lemma PressKeepsInBounds(page: int, b: Button)
    requires InBounds(page)
    ensures InBounds(Press(page, b).0)
  {
  }

  function PreviousLabel(page: int): string
  {
    if page == 0 then "" else "Previous"
  }

  function NextLabel(page: int): string
  {
    if page == LastIndex then "Get Started" else "Next"
  }

  /** On a valid page the Previous button is blank exactly when it does nothing,
      and the Next button reads "Get Started" exactly when it finishes. */
  lemma LabelsMatchEffects(page: int)
    requires InBounds(page)
    ensures PreviousLabel(page) == "" <==> Press(page, PreviousButton).0 == page
    ensures NextLabel(page) == "Get Started" <==> Press(page, NextButton).1
  {
  }

  /** The page shown after the clicks `presses`, starting from page 0. */
  function Run(presses: seq<Button>): int
    decreases |presses|
  {
    if presses == [] then 0
    else Press(Run(presses[..|presses| - 1]), presses[|presses| - 1]).0
  }

  function CountNext(presses: seq<Button>): nat
    decreases |presses|
  {
    if presses == [] then 0
    else CountNext(presses[..|presses| - 1]) + (if presses[|presses| - 1] == NextButton then 1 else 0)
  }

  /** Every reachable page can be indexed. */
  lemma {:induction false} RunInBounds(presses: seq<Button>)
    ensures InBounds(Run(presses))
    decreases |presses|
  {
    if presses != [] {
      RunInBounds(presses[..|presses| - 1]);
      PressKeepsInBounds(Run(presses[..|presses| - 1]), presses[|presses| - 1]);
    }
  }

  /** Each Next click moves at most one page forward. */
  lemma {:induction false} RunBoundedByNexts(presses: seq<Button>)
    ensures Run(presses) <= CountNext(presses)
    decreases |presses|
  {
    if presses != [] {
      RunBoundedByNexts(presses[..|presses| - 1]);
    }
  }

  /** Click `i` of `presses` calls `onFinished`. */
  predicate FinishesAt(presses: seq<Button>, i: nat)
  {
    i < |presses| && presses[i] == NextButton && Press(Run(presses[..i]), NextButton).1
  }

  /** `onFinished` is reached only from the last page, after at least
      `LastIndex` Next clicks. */
  lemma FinishNeedsEnoughNexts(presses: seq<Button>, i: nat)
    requires FinishesAt(presses, i)
    ensures Run(presses[..i]) == LastIndex && CountNext(presses[..i]) >= LastIndex
  {
    RunBoundedByNexts(presses[..i]);
  }

  /** Conversely, k Next clicks from the start reach page k, up to the last
      page, where further Next clicks leave the index. */
  lemma {:induction false} NextsReachLastPage(k: nat)
    ensures Run(seq(k, _ => NextButton)) == if k <= LastIndex then k else LastIndex
    decreases k
  {
    if k > 0 {
      var presses := seq(k, _ => NextButton);
      assert presses[..k - 1] == seq(k - 1, _ => NextButton);
      NextsReachLastPage(k - 1);
    }
  }

  /** The screen's `currentPage` state. */
  class OnboardingPager {
    var currentPage: int

    ghost predicate Valid()
      reads this
    {
      InBounds(currentPage)
    }

    constructor ()
      ensures Valid() && currentPage == 0
    {
      currentPage := 0;
    }

    /** The page on display; the index is always in bounds. */
    function Shown(): (p: OnboardingPage)
      reads this
      requires Valid()
      ensures p in OnboardingPages
    {
      OnboardingPages[currentPage]
    }

    method Previous()
      requires Valid()
      modifies this
      ensures Valid()
      ensures currentPage == Press(old(currentPage), PreviousButton).0
      ensures old(currentPage) > 0 ==> currentPage == old(currentPage) - 1
      ensures old(currentPage) == 0 ==> currentPage == 0
    {
      if currentPage > 0 {
        currentPage := currentPage - 1;
      }
    }

    /** Returns whether `onFinished` was called. */
    method Next() returns (finished: bool)
      requires Valid()
      modifies this
      ensures Valid()
      ensures (currentPage, finished) == Press(old(currentPage), NextButton)
      ensures finished <==> old(currentPage) == LastIndex
      ensures currentPage == if finished then old(currentPage) else old(currentPage) + 1
    {
      if currentPage == LastIndex {
        finished := true;
      } else {
        finished := false;
        currentPage := currentPage + 1;
      }
    }
  }
}
