/** The monetization page's onboarding guard: terms must be accepted and no
    onboarding may be in progress for a click to reach `onboardUser`. */
module MonetizationPage {

  datatype Page = Page(termsAccepted: bool, isOnboarding: bool)

  const InitialPage: Page := Page(false, false)

  /** A click, and whether it issued the `onboardUser` call. */
  datatype Clicked = Clicked(page: Page, issued: bool)

  /** `handleOnboarding` up to its `await`. */
  function Click(p: Page): (r: Clicked)
    ensures r.issued <==> p.termsAccepted && !p.isOnboarding
    ensures r.issued ==> r.page == p.(isOnboarding := true)
    ensures !r.issued ==> r.page == p
  {
    if !p.termsAccepted || p.isOnboarding then Clicked(p, false)
    else Clicked(p.(isOnboarding := true), true)
  }

  /** `handleOnboarding` after `onboardUser` settles. The provider's
      `onboardUser` resolves on every path, so only the `finally` clause
      has an effect. */
  function Settle(p: Page): (q: Page)
    ensures !q.isOnboarding && q.termsAccepted == p.termsAccepted
  {
    p.(isOnboarding := false)
  }

  /** The checkbox is disabled while onboarding, so a change then is lost. */
  function ChangeTerms(p: Page, accepted: bool): (q: Page)
    ensures q.isOnboarding == p.isOnboarding
    ensures q.termsAccepted == (if p.isOnboarding then p.termsAccepted else accepted)
  {
    if p.isOnboarding then p else p.(termsAccepted := accepted)
  }

  /** The Telegram main button's enable rule. */
  predicate MainButtonEnabled(p: Page)
    ensures MainButtonEnabled(p) <==> Click(p).issued
  {
    p.termsAccepted && !p.isOnboarding
  }

  /** The fallback button's `disabled` attribute. */
  predicate FallbackDisabled(p: Page)
    ensures FallbackDisabled(p) <==> !MainButtonEnabled(p)
  {
    !p.termsAccepted || p.isOnboarding
  }

  /** The main button shows progress exactly while onboarding runs. */
  function MainButtonText(p: Page): (t: string)
    ensures t == "Регистрация..." <==> p.isOnboarding
    ensures t == "Монетизироваться" <==> !p.isOnboarding
  {
    if p.isOnboarding then "Регистрация..." else "Монетизироваться"
  }

  /** Both buttons agree, and a click does something exactly when the
      buttons are enabled. */
  lemma ButtonsAgreeWithGuard(p: Page)
    ensures FallbackDisabled(p) <==> !MainButtonEnabled(p)
    ensures Click(p).issued <==> MainButtonEnabled(p)
  {
  }

  /** A second click while the first is in flight issues nothing, and the
      button is disabled in between. */
  lemma SecondClickIgnored(p: Page)
    requires Click(p).issued
    ensures !MainButtonEnabled(Click(p).page)
    ensures !Click(Click(p).page).issued
  {
  }

  /** After the call settles the button is enabled again, terms intact. */
  lemma SettleReenables(p: Page)
    requires Click(p).issued
    ensures MainButtonEnabled(Settle(Click(p).page))
  {
  }

  // ---------------------------------------------------------------------
  // The page inside an environment that settles its call.

  datatype Event = ClickEvent | TermsEvent(accepted: bool) | SettleEvent

  /** The page and the number of `onboardUser` calls not yet settled. */
  datatype World = World(page: Page, calls: nat)

  function Step(w: World, e: Event): World {
    match e
    case ClickEvent =>
      var r := Click(w.page);
      World(r.page, w.calls + (if r.issued then 1 else 0))
    case TermsEvent(a) => w.(page := ChangeTerms(w.page, a))
    case SettleEvent => if w.calls == 0 then w else World(Settle(w.page), w.calls - 1)
  }

  function Run(w: World, events: seq<Event>): World
    decreases |events|
  {
    if |events| == 0 then w else Run(Step(w, events[0]), events[1..])
  }

  /** A call is outstanding exactly while the page says it is onboarding. */
  predicate Invariant(w: World) {
    w.calls == (if w.page.isOnboarding then 1 else 0)
  }

  lemma StepKeepsInvariant(w: World, e: Event)
    requires Invariant(w)
    ensures Invariant(Step(w, e))
  {
  }

  /** However the user clicks and toggles, at most one call is in flight. */
  lemma {:induction false} RunKeepsInvariant(w: World, events: seq<Event>)
    requires Invariant(w)
    ensures Invariant(Run(w, events))
    ensures Run(w, events).calls <= 1
    decreases |events|
  {
    if |events| > 0 {
      StepKeepsInvariant(w, events[0]);
      RunKeepsInvariant(Step(w, events[0]), events[1..]);
    }
  }
}
