/**
 The login conversation of fortinet/common/fos_cli_driver.py: which credentials answer which
 prompt, what a rejection leads to, and when new credentials take effect.
 */
module Login {
  import opened Text
  import opened CliCommands

  datatype Credentials = Credentials(username: string, password: string)

  /** `bootstrap` is the account of a factory-fresh machine with its first password. */
  datatype Config = Config(bootstrap: Credentials, allowRecovery: bool)

  /** How far the login has come; `pendingActivation` until a new password is known to be accepted. */
  datatype Progress = Progress(
    blankAvailable: bool,
    sendBlank: bool,
    loginComplete: bool,
    awaitingAcceptance: bool,
    pendingActivation: bool)

  /**
   The way back over the credentials accepted before the active ones. `errors` counts the
   `admin-credentials` entries among the recorded errors, `pending` says one should be there.
   */
  datatype Detour = Detour(previous: Option<Credentials>, attempted: bool, inUse: bool, pending: bool, errors: nat)

  /** `active` are the credentials in use, `replies` what was typed; `failed` after a final rejection. */
  datatype Login = Login(
    progress: Progress,
    detour: Detour,
    active: Credentials,
    replies: seq<string>,
    failed: bool)

  /** A console state reaches its handler, or a feature switches to the desired credentials. */
  datatype LoginEvent = Seen(state: CliState) | Switched(desired: Credentials) | Prodded

  function Fresh(credentials: Credentials): Login {
    Login(Progress(true, false, false, false, false), Detour(None, false, false, false, 0), credentials, [], false)
  }

  function Respond(l: Login, text: string): Login {
    l.(replies := l.replies + [text + "\r"])
  }

  predicate OnPrevious(d: Detour) {
    d.inUse && d.previous.Some?
  }

  function ProvideUsername(l: Login): Login {
    var username := if OnPrevious(l.detour) then l.detour.previous.value.username else l.active.username;
    Respond(l.(progress := l.progress.(awaitingAcceptance := true)), username)
  }

  function ProvidePassword(l: Login): Login {
    if l.progress.sendBlank then
      Respond(l.(progress := l.progress.(sendBlank := false, blankAvailable := false),
                 active := l.active.(password := "")), "")
    else Respond(l, if OnPrevious(l.detour) then l.detour.previous.value.password else l.active.password)
  }

  function ConfirmNewPassword(c: Config, l: Login): Login {
    Respond(l.(progress := l.progress.(pendingActivation := true)), c.bootstrap.password)
  }

  function ActivatePending(c: Config, l: Login): Login {
    if l.progress.pendingActivation then
      l.(active := c.bootstrap, progress := l.progress.(pendingActivation := false))
    else l
  }

  /** After an accepted login: a detour over the previous credentials is on the error list once. */
  function NoteDetour(d: Detour): Detour {
    if OnPrevious(d) then
      d.(inUse := false, attempted := false, errors := if d.pending then d.errors else d.errors + 1, pending := true)
    else if d.previous.Some? then
      d.(attempted := false, errors := if d.pending then 0 else d.errors, pending := false)
    else d
  }

  function AcceptLogin(c: Config, l: Login): Login {
    ActivatePending(c, l.(progress := l.progress.(loginComplete := true, awaitingAcceptance := false),
                          detour := NoteDetour(l.detour)))
  }

  function CommandPrompt(c: Config, l: Login): Login {
    if l.progress.awaitingAcceptance then AcceptLogin(c, l)
    else ActivatePending(c, l.(progress := l.progress.(loginComplete := true)))
  }

  function Rejected(c: Config, l: Login): Login {
    var p := l.progress.(pendingActivation := false);
    if !p.loginComplete && p.blankAvailable then l.(progress := p.(sendBlank := true))
    else if c.allowRecovery && l.detour.previous.Some? && !l.detour.attempted then
      l.(progress := p, detour := l.detour.(attempted := true, inUse := true))
    else if l.detour.inUse then l.(progress := p, detour := l.detour.(inUse := false))
    else l.(progress := p, failed := true)
  }

  /** `remember_current_credentials`, then the desired credentials become the active ones. */
  function SwitchTo(l: Login, desired: Credentials): Login {
    var d := if l.detour.previous.Some? || l.detour.attempted then l.detour else l.detour.(previous := Some(l.active));
    l.(detour := d, active := desired)
  }

  function LoginStep(c: Config, l: Login, e: LoginEvent): Login {
    if l.failed then l
    else
      match e
      case Switched(desired) => SwitchTo(l, desired)
      case Prodded => Respond(l, "")
      case Seen(state) =>
        match state
        case ProvideUsername => ProvideUsername(l)
        case ProvidePassword => ProvidePassword(l)
        case CurrentPassword => Respond(l, l.active.password)
        case ChangePassword => Respond(l, c.bootstrap.password)
        case ChangePasswordConfirm => ConfirmNewPassword(c, l)
        case MorePrompt => l.(replies := l.replies + [" "])
        case CredentialAccepted => AcceptLogin(c, l)
        case CmdPrompt => CommandPrompt(c, l)
        case CredentialRejected => Rejected(c, l)
        case _ => l
  }

  function LoginRun(c: Config, credentials: Credentials, events: seq<LoginEvent>): Login
    decreases |events|
  {
    if events == [] then Fresh(credentials)
    else LoginStep(c, LoginRun(c, credentials, events[..|events| - 1]), events[|events| - 1])
  }

  lemma RunNext(c: Config, credentials: Credentials, events: seq<LoginEvent>, k: nat)
    requires k < |events|
    ensures LoginRun(c, credentials, events[..k + 1]) == LoginStep(c, LoginRun(c, credentials, events[..k]), events[k])
  {
    assert events[..k + 1][..k] == events[..k];
  }

  // ----- rejected logins

  predicate Accepts(e: LoginEvent) {
    e == Seen(CredentialAccepted) || e == Seen(CmdPrompt)
  }

  predicate Rejects(e: LoginEvent) {
    e == Seen(CredentialRejected)
  }

  /** A login is accepted: by its banner, or by the first prompt after the username was given. */
  predicate LogsIn(l: Login, e: LoginEvent) {
    e == Seen(CredentialAccepted) || (e == Seen(CmdPrompt) && l.progress.awaitingAcceptance)
  }

  /** Before any login, the blank password is tried once; until it is asked for, rejections change nothing. */
  predicate Patient(l: Login) {
    !l.progress.loginComplete && l.progress.blankAvailable
  }

  predicate Free(l: Login, e: LoginEvent) {
    Rejects(e) && Patient(l) && l.progress.sendBlank
  }

  /** The rejections that use up something. */
  function Charged(c: Config, credentials: Credentials, events: seq<LoginEvent>, i: nat, j: nat): nat
    requires i <= j <= |events|
    decreases j
  {
    if i == j then 0
    else
      var e := events[j - 1];
      var earlier := Charged(c, credentials, events, i, j - 1);
      earlier + if Rejects(e) && !Free(LoginRun(c, credentials, events[..j - 1]), e) then 1 else 0
  }

  /** How many more charged rejections there can be: the blank password, the previous credentials, the desired ones. */
  function Rank(l: Login): nat {
    (if Patient(l) && !l.progress.sendBlank then 1 else 0)
    + (if !l.detour.attempted then 2 else if l.detour.inUse then 1 else 0)
  }

  /** How the fields hang together after any run. */
  predicate Coherent(l: Login) {
    && (l.detour.inUse ==> l.detour.attempted)
    && (l.detour.attempted ==> l.detour.previous.Some?)
    && l.detour.errors == (if l.detour.pending then 1 else 0)
  }

  lemma StepCoherent(c: Config, l: Login, e: LoginEvent)
    requires Coherent(l)
    ensures Coherent(LoginStep(c, l, e))
  {
  }

  lemma {:induction false} RunCoherent(c: Config, credentials: Credentials, events: seq<LoginEvent>)
    ensures Coherent(LoginRun(c, credentials, events))
    decreases |events|
  {
    hide LoginStep, Coherent;
    if events == [] {
      FreshCoherent(credentials);
    } else {
      RunCoherent(c, credentials, events[..|events| - 1]);
      StepCoherent(c, LoginRun(c, credentials, events[..|events| - 1]), events[|events| - 1]);
    }
  }

  lemma FreshCoherent(credentials: Credentials)
    ensures Coherent(Fresh(credentials))
  {
  }

  lemma RankFalls(c: Config, l: Login, e: LoginEvent)
    requires Coherent(l) && !LogsIn(l, e)
    ensures var r := LoginStep(c, l, e);
            !r.failed ==> Rank(r) + (if Rejects(e) && !Free(l, e) then 1 else 0) <= Rank(l)
  {
  }

  lemma {:induction false} RankBounds(c: Config, credentials: Credentials, events: seq<LoginEvent>, i: nat, j: nat)
    requires i <= j <= |events| && !LoginRun(c, credentials, events[..j]).failed
    requires forall k :: i <= k < j ==> !LogsIn(LoginRun(c, credentials, events[..k]), events[k])
    ensures Charged(c, credentials, events, i, j) + Rank(LoginRun(c, credentials, events[..j]))
         <= Rank(LoginRun(c, credentials, events[..i]))
    decreases j
  {
    hide LoginStep, Rank, Coherent, LogsIn, Free;
    if i < j {
      RunNext(c, credentials, events, j - 1);
      if LoginRun(c, credentials, events[..j - 1]).failed {
        StaysFailed(c, LoginRun(c, credentials, events[..j - 1]), events[j - 1]);
      }
      RankBounds(c, credentials, events, i, j - 1);
      RunCoherent(c, credentials, events[..j - 1]);
      RankFalls(c, LoginRun(c, credentials, events[..j - 1]), events[j - 1]);
    }
  }

  lemma StaysFailed(c: Config, l: Login, e: LoginEvent)
    requires l.failed
    ensures LoginStep(c, l, e).failed
  {
  }

  /** Between two logins at most three rejections are absorbed, not counting the free ones. */
  lemma RejectionsBounded(c: Config, credentials: Credentials, events: seq<LoginEvent>, i: nat, j: nat)
    requires i <= j <= |events| && !LoginRun(c, credentials, events[..j]).failed
    requires forall k :: i <= k < j ==> !LogsIn(LoginRun(c, credentials, events[..k]), events[k])
    ensures Charged(c, credentials, events, i, j) <= 3
  {
    RankBounds(c, credentials, events, i, j);
  }

  /** One rejection after another, with nothing in between. */
  function Refusals(n: nat): (events: seq<LoginEvent>)
    ensures |events| == n
  {
    seq(n, _ => Seen(CredentialRejected))
  }

  /** How many of them in a row are absorbed once the blank password is out of the question. */
  function Stamina(c: Config, l: Login): nat {
    if c.allowRecovery && l.detour.previous.Some? && !l.detour.attempted then 2 else if l.detour.inUse then 1 else 0
  }

  lemma RefusalStep(c: Config, l: Login)
    requires !l.failed
    ensures var r := LoginStep(c, l, Seen(CredentialRejected));
            if Patient(l) then !r.failed && Patient(r)
            else !Patient(r) && (r.failed <==> Stamina(c, l) == 0) && (!r.failed ==> Stamina(c, r) == Stamina(c, l) - 1)
  {
  }

  /**
   Exactly how many rejections in a row the driver listens to: for ever as long as no login was completed
   and the blank password has not been sent, which needs the device to ask for it; otherwise two more, one
   more or none, depending on how far the detour over the previous credentials has got.
   */
  lemma {:induction false} RefusalsAbsorbed(c: Config, credentials: Credentials, events: seq<LoginEvent>, n: nat)
    requires !LoginRun(c, credentials, events).failed
    ensures var l := LoginRun(c, credentials, events);
            var r := LoginRun(c, credentials, events + Refusals(n));
            && (!r.failed <==> Patient(l) || n <= Stamina(c, l))
            && (!r.failed ==> if Patient(l) then Patient(r) else !Patient(r) && Stamina(c, r) == Stamina(c, l) - n)
    decreases n
  {
    hide LoginStep, Patient, Stamina;
    var all := events + Refusals(n);
    if n == 0 {
      assert all == events;
    } else {
      RefusalsAbsorbed(c, credentials, events, n - 1);
      var r := LoginRun(c, credentials, events + Refusals(n - 1));
      assert all[..|all| - 1] == events + Refusals(n - 1) && all[|all| - 1] == Seen(CredentialRejected);
      if r.failed {
        StaysFailed(c, r, Seen(CredentialRejected));
      } else {
        RefusalStep(c, r);
      }
    }
  }

  /** One attempt to log in that is turned down. */
  const REFUSED := [Seen(CliState.ProvideUsername), Seen(CliState.ProvidePassword), Seen(CredentialRejected)]

  function Attempt(c: Config, l: Login): Login {
    LoginStep(c, LoginStep(c, LoginStep(c, l, REFUSED[0]), REFUSED[1]), REFUSED[2])
  }

  function Typed(who: Credentials): seq<string> {
    [who.username + "\r", who.password + "\r"]
  }

  /**
   After a switch the desired credentials are tried, then the previous ones, then the desired ones
   again, and then the driver gives up.
   */
  lemma RefusedThrice(c: Config, l: Login, desired: Credentials)
    requires c.allowRecovery && !l.failed && l.progress.loginComplete && l.detour.previous.None?
    requires !l.detour.attempted && !l.detour.inUse && !l.progress.sendBlank
    ensures var l1 := Attempt(c, SwitchTo(l, desired));
            var l2 := Attempt(c, l1);
            var l3 := Attempt(c, l2);
            && !l2.failed && l3.failed
            && l3.replies == l.replies + Typed(desired) + Typed(l.active) + Typed(desired)
  {
  }

  // ----- which account is typed

  /**
   A username prompt and the password prompt after it are answered for one account, the previous one on a
   detour and else the active one; but the password is blank while the fallback is due, and then the active
   credentials lose theirs, whichever account that was.
   */
  lemma TypedTogether(c: Config, l: Login)
    requires !l.failed
    ensures var r := LoginStep(c, LoginStep(c, l, REFUSED[0]), REFUSED[1]);
            var who := if OnPrevious(l.detour) then l.detour.previous.value else l.active;
            if l.progress.sendBlank then
              r.replies == l.replies + Typed(who.(password := "")) && r.active == l.active.(password := "")
            else r.replies == l.replies + Typed(who) && r.active == l.active
  {
  }

  /** How often the blank password was typed for want of a better one. */
  function Blanks(c: Config, credentials: Credentials, events: seq<LoginEvent>): nat
    decreases |events|
  {
    if events == [] then 0
    else
      var earlier := events[..|events| - 1];
      var l := LoginRun(c, credentials, earlier);
      Blanks(c, credentials, earlier)
      + if !l.failed && events[|events| - 1] == REFUSED[1] && l.progress.sendBlank then 1 else 0
  }

  /** The fallback is used up by its first use, whatever happens afterwards. */
  lemma {:induction false} BlankAtMostOnce(c: Config, credentials: Credentials, events: seq<LoginEvent>)
    ensures Blanks(c, credentials, events) <= 1
    ensures var p := LoginRun(c, credentials, events).progress;
            (p.sendBlank ==> p.blankAvailable) && (p.blankAvailable <==> Blanks(c, credentials, events) == 0)
    decreases |events|
  {
    hide LoginStep;
    if events != [] {
      BlankAtMostOnce(c, credentials, events[..|events| - 1]);
      BlankStep(c, LoginRun(c, credentials, events[..|events| - 1]), events[|events| - 1]);
    }
  }

  lemma BlankStep(c: Config, l: Login, e: LoginEvent)
    requires l.progress.sendBlank ==> l.progress.blankAvailable
    ensures var p := LoginStep(c, l, e).progress;
            && (p.sendBlank ==> p.blankAvailable)
            && p.blankAvailable == (l.progress.blankAvailable && (l.failed || e != REFUSED[1] || !l.progress.sendBlank))
  {
  }

  /**
   It is not confined to the time before the first login: a rejection that no password prompt followed
   leaves it due, and an accepted login does not call it off. Here it is typed for the previous account,
   and the desired password is lost.
   */
  lemma StaleBlank(c: Config, credentials: Credentials, desired: Credentials)
    requires c.allowRecovery
    ensures var events := [Seen(CredentialRejected), Seen(CmdPrompt), Switched(desired)] + [Seen(CredentialRejected)];
            var before := LoginRun(c, credentials, events);
            var l := LoginStep(c, LoginStep(c, before, REFUSED[0]), REFUSED[1]);
            && before.progress.loginComplete && before.active == desired && OnPrevious(before.detour)
            && l.replies == Typed(credentials.(password := "")) && l.active == desired.(password := "")
  {
    hide LoginStep;
    var events := [Seen(CredentialRejected), Seen(CmdPrompt), Switched(desired)] + [Seen(CredentialRejected)];
    var l := Fresh(credentials);
    assert events[..4] == events && events[..0] == [];
    RunNext(c, credentials, events, 0);
    RunNext(c, credentials, events, 1);
    RunNext(c, credentials, events, 2);
    RunNext(c, credentials, events, 3);
    StaleSteps(c, credentials, desired);
    TypedTogether(c, LoginRun(c, credentials, events));
  }

  lemma StaleSteps(c: Config, credentials: Credentials, desired: Credentials)
    requires c.allowRecovery
    ensures var l := LoginStep(c, LoginStep(c, LoginStep(c, LoginStep(c, Fresh(credentials), Seen(CredentialRejected)),
                       Seen(CmdPrompt)), Switched(desired)), Seen(CredentialRejected));
            && !l.failed && l.progress.sendBlank && l.progress.loginComplete && l.active == desired && l.replies == []
            && l.detour == Detour(Some(credentials), true, true, false, 0)
  {
  }

  /** The credentials remembered before the first switch are remembered for good. */
  lemma {:induction false} RememberedForGood(c: Config, credentials: Credentials, events: seq<LoginEvent>, k: nat)
    requires k <= |events| && LoginRun(c, credentials, events[..k]).detour.previous.Some?
    ensures LoginRun(c, credentials, events).detour.previous
         == LoginRun(c, credentials, events[..k]).detour.previous
    decreases |events|
  {
    hide LoginStep;
    if k == |events| {
      assert events[..k] == events;
    } else {
      var earlier := events[..|events| - 1];
      assert earlier[..k] == events[..k];
      RememberedForGood(c, credentials, earlier, k);
      RememberedStep(c, LoginRun(c, credentials, earlier), events[|events| - 1]);
    }
  }

  /** They are the ones that were active then, which a first switch always finds. */
  lemma RememberedStep(c: Config, l: Login, e: LoginEvent)
    ensures var r := LoginStep(c, l, e);
            if l.detour.previous.Some? then r.detour.previous == l.detour.previous
            else if e.Switched? && !l.failed && !l.detour.attempted then r.detour.previous == Some(l.active)
            else r.detour.previous.None?
  {
  }

  // ----- the error that marks a detour

  /** The credentials the last accepted login used were the previous ones. */
  function OnDetour(c: Config, credentials: Credentials, events: seq<LoginEvent>): bool
    decreases |events|
  {
    if events == [] then false
    else
      var earlier := events[..|events| - 1];
      var l := LoginRun(c, credentials, earlier);
      var e := events[|events| - 1];
      if !l.failed && LogsIn(l, e) && l.detour.previous.Some? then l.detour.inUse
      else OnDetour(c, credentials, earlier)
  }

  lemma DetourStep(c: Config, l: Login, e: LoginEvent)
    requires Coherent(l)
    ensures LoginStep(c, l, e).detour.pending ==
            if !l.failed && LogsIn(l, e) && l.detour.previous.Some? then l.detour.inUse else l.detour.pending
  {
  }

  /** The `admin-credentials` error is on the list once after a login over the previous credentials, else never. */
  lemma {:induction false} RecoveryErrorOnce(c: Config, credentials: Credentials, events: seq<LoginEvent>)
    ensures var l := LoginRun(c, credentials, events);
            && l.detour.pending == OnDetour(c, credentials, events)
            && l.detour.errors == if OnDetour(c, credentials, events) then 1 else 0
    decreases |events|
  {
    hide LoginStep;
    RunCoherent(c, credentials, events);
    if events != [] {
      var earlier := events[..|events| - 1];
      RecoveryErrorOnce(c, credentials, earlier);
      RunCoherent(c, credentials, earlier);
      DetourStep(c, LoginRun(c, credentials, earlier), events[|events| - 1]);
    }
  }

  // ----- when the first password takes effect

  /** A new password was confirmed, and nothing was accepted or rejected since. */
  predicate ConfirmedSince(events: seq<LoginEvent>) {
    events != [] && !Accepts(events[|events| - 1]) && !Rejects(events[|events| - 1])
    && (events[|events| - 1] == Seen(CliState.ChangePasswordConfirm) || ConfirmedSince(events[..|events| - 1]))
  }

  lemma {:induction false} PendingMeansConfirmed(c: Config, credentials: Credentials, events: seq<LoginEvent>)
    requires !LoginRun(c, credentials, events).failed
    ensures LoginRun(c, credentials, events).progress.pendingActivation <==> ConfirmedSince(events)
    decreases |events|
  {
    hide LoginStep;
    if events != [] {
      var l := LoginRun(c, credentials, events[..|events| - 1]);
      if l.failed {
        StaysFailed(c, l, events[|events| - 1]);
      }
      PendingMeansConfirmed(c, credentials, events[..|events| - 1]);
      PendingStep(c, l, events[|events| - 1]);
    }
  }

  lemma PendingStep(c: Config, l: Login, e: LoginEvent)
    requires !LoginStep(c, l, e).failed
    ensures LoginStep(c, l, e).progress.pendingActivation ==
            (!Accepts(e) && !Rejects(e) && (e == Seen(CliState.ChangePasswordConfirm) || l.progress.pendingActivation))
  {
  }

  /**
   The bootstrap credentials become active exactly when a login or prompt is accepted after a
   confirmation that no rejection followed.
   */
  lemma BootstrapActivation(c: Config, credentials: Credentials, events: seq<LoginEvent>, e: LoginEvent)
    requires !LoginRun(c, credentials, events).failed && !e.Switched?
    ensures var l := LoginRun(c, credentials, events);
            var r := LoginRun(c, credentials, events + [e]);
            if Accepts(e) && ConfirmedSince(events) then r.active == c.bootstrap
            else if e == Seen(CliState.ProvidePassword) && l.progress.sendBlank then
              r.active == l.active.(password := "")
            else r.active == l.active
    ensures e == Seen(CredentialRejected) ==> !ConfirmedSince(events + [e])
  {
    hide LoginStep, Accepts;
    assert (events + [e])[..|events|] == events;
    PendingMeansConfirmed(c, credentials, events);
    ActivationStep(c, LoginRun(c, credentials, events), e);
  }

  lemma ActivationStep(c: Config, l: Login, e: LoginEvent)
    requires !l.failed && !e.Switched?
    ensures var r := LoginStep(c, l, e);
            if Accepts(e) && l.progress.pendingActivation then r.active == c.bootstrap
            else if e == Seen(CliState.ProvidePassword) && l.progress.sendBlank then
              r.active == l.active.(password := "")
            else r.active == l.active
  {
  }
}
