/**
 * The onboarding stepper: a fixed list of four screens, a current index
 * that the "next" and "back" buttons move, and what the screen shows for
 * each index (the entry's texts, a picture or the photo placeholders, the
 * state and caption of the buttons, and which progress dot is highlighted).
 *
 * `Next` and `Back` are the index transitions; the class
 * `OnboardingScreen` holds the index and its handlers are proved to apply
 * them. Animations and styling are not modelled, except for the dot widths
 * and colours, which carry the highlight.
 */
module Onboard {
  import opened JsText

  datatype OnboardingEntry = OnboardingEntry(
    id: int,
    title: string,
    subtitle: string,
    description: string,
    image: Option<string>,
    isPhotoScreen: bool)

  const OnboardingData: seq<OnboardingEntry> := [
    OnboardingEntry(
      1, "Aqui Estão Algumas Dicas Essenciais", "Para Aproveitar Ao Máximo",
      "Personalize Quem Pode Ver Sua Localização Para Garantir Sua Privacidade.",
      Some("https://hebbkx1anhila5yf.public.blob.vercel-storage.com/Dicas%20de%20Seguran%C3%A7a%2001-7AcnNfBooeeQeTWyVaAu6iAVBOPmNI.png"),
      false),
    OnboardingEntry(
      2, "Botão De Emergência Rápida", "",
      "Configure O Botão De Emergência Para Ligar Rapidamente Para Contatos Específicos Ou À Polícia.",
      Some("https://hebbkx1anhila5yf.public.blob.vercel-storage.com/Dicas%20de%20Seguran%C3%A7a%2002-niY9u1HECQuOXUnuHb5sI6h1JH094F.png"),
      false),
    OnboardingEntry(
      3, "Navegação Consciente", "",
      "Antes De Sair, Confira As Áreas De Risco E Escolha Rotas Seguras.",
      Some("https://hebbkx1anhila5yf.public.blob.vercel-storage.com/Dicas%20de%20Seguran%C3%A7a%2003-yhjOUUJCcqKwx39PN6dCuS6MVvSDXb.png"),
      false),
    OnboardingEntry(
      4, "Adicione Suas Fotos", "Personalize Seu Perfil",
      "Adicione fotos para que seus contatos possam te identificar facilmente.",
      None,
      true)
  ]

  /** The index of the last screen. */
  const LastIndex: int := |OnboardingData| - 1

  /** `currentIndex` names an entry of the list. */
  predicate InBounds(i: int) {
    0 <= i < |OnboardingData|
  }

  // ----- transitions -----

  /** `handleNext`: forward one screen, unless already on the last. */
  function Next(i: int): int {
    if i < |OnboardingData| - 1 then i + 1 else i
  }

  /** `handleBack`: back one screen, unless already on the first. */
  function Back(i: int): int {
    if i > 0 then i - 1 else i
  }

  datatype Press = NextPress | BackPress

  function Step(i: int, p: Press): int {
    match p
    case NextPress => Next(i)
    case BackPress => Back(i)
  }

  /** The index after a sequence of button presses. */
  function Run(i: int, presses: seq<Press>): int
    decreases |presses|
  {
    if presses == [] then i else Run(Step(i, presses[0]), presses[1..])
  }

  /** Both transitions keep the index in bounds, so `onboardingData[currentIndex]` is always defined. */
  lemma StepInBounds(i: int, p: Press)
    requires InBounds(i)
    ensures InBounds(Step(i, p))
  {
  }

  lemma {:induction false} RunInBounds(i: int, presses: seq<Press>)
    requires InBounds(i)
    ensures InBounds(Run(i, presses))
    decreases |presses|
  {
    if presses != [] {
      StepInBounds(i, presses[0]);
      RunInBounds(Step(i, presses[0]), presses[1..]);
    }
  }

  /** From the initial index 0, no sequence of presses leaves 0..3. */
  lemma ReachableInBounds(presses: seq<Press>)
    ensures 0 <= Run(0, presses) <= 3
  {
    RunInBounds(0, presses);
  }

  /** `handleNext` moves only below the last index, `handleBack` only above 0; otherwise they do nothing. */
  lemma TransitionGuards(i: int)
    requires InBounds(i)
    ensures Next(i) == (if i < LastIndex then i + 1 else i)
    ensures Back(i) == (if i > 0 then i - 1 else i)
  {
  }

  /** Next then back, and back then next, return to where they started, away from the ends. */
  lemma NextBackRoundTrip(i: int)
    ensures 0 <= i < LastIndex ==> Back(Next(i)) == i
    ensures 0 < i <= LastIndex ==> Next(Back(i)) == i
  {
  }

  // ----- what the screen shows -----

  /** The back button's `disabled`. */
  predicate BackDisabled(i: int) {
    i == 0
  }

  /** The next button's `disabled`. */
  predicate NextDisabled(i: int) {
    i == |OnboardingData| - 1
  }

  function NextCaption(i: int): string {
    if i == |OnboardingData| - 1 then "Finalizar" else "Próximo"
  }

  /** A progress dot's target width and colour. */
  datatype DotStyle = DotStyle(width: int, color: string)

  /** The style of dot `dot` when the current index is `i`. */
  function DotStyleFor(i: int, dot: int): DotStyle {
    if i == dot then DotStyle(24, "#2E5BFF") else DotStyle(8, "#E0E0E0")
  }

  /** The four hard-coded dot styles, one per entry in the list. */
  function Dots(i: int): (r: seq<DotStyle>)
    ensures |r| == |OnboardingData|
  {
    [DotStyleFor(i, 0), DotStyleFor(i, 1), DotStyleFor(i, 2), DotStyleFor(i, 3)]
  }

  /** The dots drawn wide. */
  function HighlightedDots(i: int): (r: set<int>)
    ensures InBounds(i) ==> r == {i}
    ensures !InBounds(i) ==> r == {}
  {
    set d | 0 <= d < |Dots(i)| && Dots(i)[d].width == 24
  }

  /** The large central element: a picture, or the photo placeholders. */
  datatype Hero = Picture(uri: Option<string>) | PhotoPlaceholders

  /** Everything on screen that depends on the current index. */
  datatype ScreenView = ScreenView(
    title: string,
    subtitle: Option<string>,
    hero: Hero,
    description: string,
    backDisabled: bool,
    nextDisabled: bool,
    nextCaption: string,
    dots: seq<DotStyle>)

  /**
   * The screen for index `i`. The subtitle is shown only when non-empty;
   * the hero is the photo placeholders exactly on the last screen, and a
   * defined picture everywhere else.
   */
  function Render(i: int): (v: ScreenView)
    requires InBounds(i)
    ensures v.title == OnboardingData[i].title && v.description == OnboardingData[i].description
    ensures v.subtitle.Some? <==> OnboardingData[i].subtitle != ""
    ensures v.subtitle.Some? ==> v.subtitle.value == OnboardingData[i].subtitle
    ensures v.hero == PhotoPlaceholders <==> i == LastIndex
    ensures v.hero.Picture? ==> v.hero.uri == OnboardingData[i].image && v.hero.uri.Some?
    ensures v.backDisabled <==> Back(i) == i
    ensures v.nextDisabled <==> Next(i) == i
    ensures v.nextCaption == (if v.nextDisabled then "Finalizar" else "Próximo")
    ensures v.dots == Dots(i) && |v.dots| == |OnboardingData|
    ensures forall d :: 0 <= d < |v.dots| ==> v.dots[d].width == (if d == i then 24 else 8)
    ensures forall d :: 0 <= d < |v.dots| ==> v.dots[d].color == (if d == i then "#2E5BFF" else "#E0E0E0")
  {
    var e := OnboardingData[i];
    ScreenView(
      e.title,
      if e.subtitle != "" then Some(e.subtitle) else None,
      if e.isPhotoScreen then PhotoPlaceholders else Picture(e.image),
      e.description,
      BackDisabled(i),
      NextDisabled(i),
      NextCaption(i),
      Dots(i))
  }

  /** The photo screen is the only entry flagged `isPhotoScreen`, and it is the last one. */
  lemma PhotoScreenIsLast(i: int)
    requires InBounds(i)
    ensures OnboardingData[i].isPhotoScreen <==> i == 3
  {
  }

  /** The object the screen keeps: its current index. */
  class OnboardingScreen {
    var currentIndex: int

    predicate Valid()
      reads this
    {
      InBounds(currentIndex)
    }

    constructor ()
      ensures currentIndex == 0 && Valid()
    {
      currentIndex := 0;
    }

    method HandleNext()
      modifies this
      ensures currentIndex == Next(old(currentIndex))
      ensures old(Valid()) ==> Valid()
    {
      if currentIndex < |OnboardingData| - 1 {
        currentIndex := currentIndex + 1;
      }
    }

    method HandleBack()
      modifies this
      ensures currentIndex == Back(old(currentIndex))
      ensures old(Valid()) ==> Valid()
    {
      if currentIndex > 0 {
        currentIndex := currentIndex - 1;
      }
    }

    /** `onboardingData[currentIndex]`, defined whenever the index is valid. */
    function CurrentData(): (e: OnboardingEntry)
      reads this
      requires Valid()
      ensures e in OnboardingData
      ensures e.id == currentIndex + 1
    {
      OnboardingData[currentIndex]
    }
  }
}
