/** The state of the hero section component and the steps that both of its
    variants take in the same way: mounting (which starts the typing effect),
    the typing interval's tick, the next-role timeout, the close button and
    the document-level mouseleave listener. Timers, audio elements and
    pointer events become explicit steps and outcome parameters. */
module HeroMachine {
  import Typewriter

  /** `mounted`; the typing machine; `isOpen`, the reveal panel;
      `musicPlaying`; `audioReady`, the click sound has loaded; `clickSound`,
      the click-sound reference holds an element; `music`, the
      background-music reference holds an element. */
  datatype HeroState = HeroState(
    mounted: bool,
    typing: Typewriter.Typing,
    isOpen: bool,
    musicPlaying: bool,
    audioReady: bool,
    clickSound: bool,
    music: bool)

  /** The state on first render. */
  const Initial: HeroState := HeroState(false, Typewriter.Idle, false, false, false, false, false)

  /** What holds of every reachable state, in both variants: the typing
      invariant, no typing before mount, the click sound is ready only once
      it exists, and music plays only if there is a music element. */
  ghost predicate Valid(roles: seq<string>, s: HeroState) {
    Typewriter.Inv(roles, s.typing) &&
    (!s.mounted ==> s.typing == Typewriter.Idle) &&
    (s.audioReady ==> s.clickSound) &&
    (s.musicPlaying ==> s.music)
  }

  /** `setMounted(true)`: the first time, the typing effect runs for the
      current role; afterwards the flag does not change and nothing runs. */
  function Mount(s: HeroState): (r: HeroState)
    ensures r.mounted
    ensures s.mounted ==> r == s
    ensures !s.mounted ==> r.typing.interval && r.typing.charIndex == 0
    ensures !s.mounted ==> r.typing == Typewriter.Start(s.typing)
    ensures r.(typing := s.typing, mounted := s.mounted) == s
  {
    if s.mounted then s
    else s.(mounted := true, typing := Typewriter.Start(s.typing))
  }

  /** One tick of the typing interval. */
  function Tick(roles: seq<string>, s: HeroState): (r: HeroState)
    requires s.typing.roleIndex < |roles|
    ensures r.(typing := s.typing) == s
  {
    s.(typing := Typewriter.Tick(roles, s.typing))
  }

  /** The next-role timeout firing. */
  function RoleTimeout(roles: seq<string>, s: HeroState): (r: HeroState)
    requires |roles| > 0
    ensures r.(typing := s.typing) == s
  {
    s.(typing := Typewriter.RoleTimeout(roles, s.typing))
  }

  /** `handleClose`: the panel is closed and nothing else changes. */
  function Close(s: HeroState): (r: HeroState)
    ensures !r.isOpen
    ensures r.(isOpen := s.isOpen) == s
  {
    s.(isOpen := false)
  }

  /** The document's mouseleave listener. The listener is installed and the
      content element rendered only once mounted; it closes the panel when
      it is open and the event's target lies outside the content. */
  function MouseLeave(s: HeroState, targetInside: bool): (r: HeroState)
    ensures r.isOpen <==> s.isOpen && (targetInside || !s.mounted)
    ensures r.(isOpen := s.isOpen) == s
  {
    if s.mounted && s.isOpen && !targetInside then s.(isOpen := false) else s
  }

  // ---------------------------------------------------------------------
  // The shared steps keep the invariant
  // ---------------------------------------------------------------------

  lemma InitialValid(roles: seq<string>)
    requires |roles| > 0
    ensures Valid(roles, Initial)
  {
    Typewriter.StartFromIdle(roles);
  }

  lemma MountKeepsValid(roles: seq<string>, s: HeroState)
    requires Valid(roles, s)
    ensures Valid(roles, Mount(s))
  {
    if !s.mounted {
      Typewriter.StartFromIdle(roles);
    }
  }

  lemma TickKeepsValid(roles: seq<string>, s: HeroState)
    requires Valid(roles, s)
    ensures Valid(roles, Tick(roles, s))
  {
    Typewriter.TickKeepsInv(roles, s.typing);
  }

  lemma RoleTimeoutKeepsValid(roles: seq<string>, s: HeroState)
    requires Valid(roles, s)
    ensures Valid(roles, RoleTimeout(roles, s))
  {
    Typewriter.RoleTimeoutKeepsInv(roles, s.typing);
  }

  /** Before mount, neither the interval nor the timeout is live, so the
      typing steps change nothing: no character is typed before mount. */
  lemma NoTypingBeforeMount(roles: seq<string>, s: HeroState)
    requires Valid(roles, s) && !s.mounted
    ensures Tick(roles, s) == s && RoleTimeout(roles, s) == s
    ensures MouseLeave(s, false) == s
  {
  }
}
