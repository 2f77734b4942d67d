/** The hero section (TypeScript variant, components/sections/Hero.tsx). Every
    effect and handler of this variant waits for `mounted`: the typing effect,
    the click-sound and music initialisation, the mouseleave listener, the
    reveal click and the music toggle. */
module HeroTsx {
  import Typewriter
  import opened HeroMachine

  /** The five roles the typing effect cycles through. */
  const Roles: seq<string> := [
    "FRONTEND DEVELOPER",
    "REACT SPECIALIST",
    "WEB DEVELOPER",
    "CODE WHISPERER",
    "DESIGN-SAVVY CODER"
  ]

  /** The click-sound initialisation, which runs once mounted: when the audio
      element can be created it is kept and marked ready; otherwise the sound
      is marked not ready. */
  function ClickSoundInit(s: HeroState, created: bool): (r: HeroState)
    ensures r.audioReady <==> (if s.mounted then created else s.audioReady)
    ensures r.clickSound <==> s.clickSound || (s.mounted && created)
    ensures r.(audioReady := s.audioReady, clickSound := s.clickSound) == s
  {
    if !s.mounted then s
    else if created then s.(clickSound := true, audioReady := true)
    else s.(audioReady := false)
  }

  /** The background-music initialisation, which runs once mounted. */
  function MusicInit(s: HeroState, created: bool): (r: HeroState)
    ensures r.music <==> s.music || (s.mounted && created)
    ensures r.(music := s.music) == s
  {
    if s.mounted && created then s.(music := true) else s
  }

  /** `handleButtonClick`: a no-op unless the click sound is ready and the
      component is mounted. With a click-sound element the panel opens
      whether playing it succeeds or throws; without one nothing happens. */
  function RevealClick(s: HeroState, playSucceeds: bool): (r: HeroState)
    ensures r.isOpen <==> s.isOpen || (s.audioReady && s.mounted && s.clickSound)
    ensures r.(isOpen := s.isOpen) == s
  {
    if !s.audioReady || !s.mounted then s
    // The panel opens whether `play()` resolves or throws.
    else if !s.clickSound then s
    else s.(isOpen := true)
  }

  /** `toggleMusic`: flips `musicPlaying` only when there is a music element,
      the component is mounted, and pausing or playing did not throw. */
  function MusicToggle(s: HeroState, succeeds: bool): (r: HeroState)
    ensures r.musicPlaying <==> (s.musicPlaying != (s.music && s.mounted && succeeds))
    ensures r.(musicPlaying := s.musicPlaying) == s
  {
    if !s.music || !s.mounted then s
    else if succeeds then s.(musicPlaying := !s.musicPlaying)
    else s
  }

  /** Before mount the state is the initial one. */
  ghost predicate Gated(s: HeroState) {
    !s.mounted ==> s == Initial
  }

  /** Before mount, every step but mounting leaves the state as it is: no
      typing, no audio, no panel, no music. */
  lemma NothingBeforeMount(created: bool, inside: bool, ok: bool)
    ensures var s := Initial;
      Tick(Roles, s) == s && RoleTimeout(Roles, s) == s &&
      ClickSoundInit(s, created) == s && MusicInit(s, created) == s &&
      RevealClick(s, ok) == s && MusicToggle(s, ok) == s &&
      Close(s) == s && MouseLeave(s, inside) == s
  {
  }

  /** The handlers of this variant keep the invariant and the mount gate. */
  lemma HandlersKeepValid(s: HeroState, b: bool)
    requires Valid(Roles, s) && Gated(s)
    ensures Valid(Roles, ClickSoundInit(s, b)) && Gated(ClickSoundInit(s, b))
    ensures Valid(Roles, MusicInit(s, b)) && Gated(MusicInit(s, b))
    ensures Valid(Roles, RevealClick(s, b)) && Gated(RevealClick(s, b))
    ensures Valid(Roles, MusicToggle(s, b)) && Gated(MusicToggle(s, b))
    ensures Valid(Roles, Close(s)) && Gated(Close(s))
    ensures Valid(Roles, MouseLeave(s, b)) && Gated(MouseLeave(s, b))
  {
  }

  /** The role index stays below five and comes back to where it started
      after five role changes, and not before. */
  lemma FiveRoleCycle(i: nat, k: nat)
    requires i < |Roles|
    ensures Typewriter.Advances(|Roles|, i, 5) == i
    ensures 0 < k < 5 ==> Typewriter.Advances(|Roles|, i, k) != i
  {
    Typewriter.RolesCycle(|Roles|, i, k);
  }

  /** The component: React state and refs as fields. `charIndex`,
      `typingInterval` and `roleTimeout` stand for the typing effect's local
      counter and its two timers. */
  class Hero {
    var mounted: bool
    var currentRoleIndex: nat
    var charIndex: nat
    var typingText: string
    var typingInterval: bool
    var roleTimeout: bool
    var isOpen: bool
    var musicPlaying: bool
    var audioReady: bool
    var clickSound: bool
    var music: bool

    ghost function State(): HeroState
      reads this
    {
      HeroState(mounted,
        Typewriter.Typing(currentRoleIndex, charIndex, typingText, typingInterval, roleTimeout),
        isOpen, musicPlaying, audioReady, clickSound, music)
    }

    ghost predicate Valid()
      reads this
    {
      HeroMachine.Valid(Roles, State()) && Gated(State())
    }

    constructor ()
      ensures Valid() && State() == Initial
    {
      mounted, isOpen, musicPlaying := false, false, false;
      currentRoleIndex, charIndex, typingText := 0, 0, "";
      typingInterval, roleTimeout := false, false;
      audioReady, clickSound, music := false, false, false;
      InitialValid(Roles);
    }

    /** The mount effect; the typing effect then runs for the current role. */
    method Mount()
      requires Valid()
      modifies this
      ensures Valid() && State() == HeroMachine.Mount(old(State()))
    {
      ghost var s := State();
      if !mounted {
        mounted := true;
        charIndex := 0;
        typingInterval, roleTimeout := true, false;
      }
      MountKeepsValid(Roles, s);
    }

    /** One firing of the typing interval. */
    method Tick()
      requires Valid()
      modifies this
      ensures Valid() && State() == HeroMachine.Tick(Roles, old(State()))
    {
      ghost var s := State();
      if typingInterval {
        var role := Roles[currentRoleIndex];
        if charIndex <= |role| {
          typingText := role[..charIndex];
          charIndex := charIndex + 1;
        } else {
          typingInterval := false;
          roleTimeout := true;
        }
      }
      TickKeepsValid(Roles, s);
    }

    /** The next-role timeout firing; the typing effect then runs again. */
    method RoleTimeout()
      requires Valid()
      modifies this
      ensures Valid() && State() == HeroMachine.RoleTimeout(Roles, old(State()))
    {
      ghost var s := State();
      if roleTimeout {
        currentRoleIndex := (currentRoleIndex + 1) % |Roles|;
        roleTimeout := false;
        charIndex := 0;
        typingInterval := true;
      }
      RoleTimeoutKeepsValid(Roles, s);
    }

    /** The click-sound initialisation finishing; `created` says whether the
        audio element could be created. */
    method InitClickSound(created: bool)
      requires Valid()
      modifies this
      ensures Valid() && State() == ClickSoundInit(old(State()), created)
    {
      ghost var s := State();
      if mounted {
        if created {
          clickSound := true;
          audioReady := true;
        } else {
          audioReady := false;
        }
      }
      HandlersKeepValid(s, created);
    }

    /** The background-music initialisation finishing. */
    method InitMusic(created: bool)
      requires Valid()
      modifies this
      ensures Valid() && State() == MusicInit(old(State()), created)
    {
      ghost var s := State();
      if mounted && created {
        music := true;
      }
      HandlersKeepValid(s, created);
    }

    /** `handleButtonClick`; `playSucceeds` says whether playing the click
        sound resolved or threw. */
    method ButtonClick(playSucceeds: bool)
      requires Valid()
      modifies this
      ensures Valid() && State() == RevealClick(old(State()), playSucceeds)
    {
      ghost var s := State();
      if audioReady && mounted && clickSound {
        // The panel opens whether `play()` resolves or throws.
        isOpen := true;
      }
      HandlersKeepValid(s, playSucceeds);
    }

    /** `handleClose`. */
    method Close()
      requires Valid()
      modifies this
      ensures Valid() && State() == HeroMachine.Close(old(State()))
    {
      ghost var s := State();
      isOpen := false;
      HandlersKeepValid(s, false);
    }

    /** The document's mouseleave event; `targetInside` says whether its
        target lies inside the content element. */
    method MouseLeave(targetInside: bool)
      requires Valid()
      modifies this
      ensures Valid() && State() == HeroMachine.MouseLeave(old(State()), targetInside)
    {
      ghost var s := State();
      if mounted && isOpen && !targetInside {
        isOpen := false;
      }
      HandlersKeepValid(s, targetInside);
    }

    /** `toggleMusic`; `succeeds` says whether pausing or playing resolved. */
    method ToggleMusic(succeeds: bool)
      requires Valid()
      modifies this
      ensures Valid() && State() == MusicToggle(old(State()), succeeds)
    {
      ghost var s := State();
      if music && mounted && succeeds {
        musicPlaying := !musicPlaying;
      }
      HandlersKeepValid(s, succeeds);
    }
  }
}
