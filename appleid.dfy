/**
 * The account-recovery steps of the Apple ID service. The browser page is a
 * record of what each probe on it answers; the service keeps the log of the
 * form interactions it performs (fills, clicks, key presses, captcha waits)
 * and the account password, which it replaces only when a reset is accepted.
 */
module AppleId {
  import opened Wrappers
  import opened Strings
  import Password

  /** The answer of an `isVisible()` probe: shown, not shown, or the probe threw. */
  datatype Visibility = Visible | Hidden | ProbeFailed

  /**
   * One pass of the captcha submit loop as the page answers it: the captcha
   * probe, whether the click on the primary button went through, and the
   * `idms-error` probe after the click.
   */
  datatype SubmitRound = SubmitRound(captcha: Visibility, clicked: bool, idmsError: Visibility)

  datatype Target =
    | AppleIdInput | PrimaryButton | DateInput | AnswerInput(index: nat) | PasswordInput(index: nat)
    | PasswordChangeLink | AccountNameField | PasswordField | DeviceExpand(index: nat)
    | SecondaryButton | RemoveButton

  /** A form interaction; `WaitForCaptcha` is the pause left for solving a visible captcha by hand. */
  datatype Action = Fill(target: Target, text: string) | Click(target: Target) | PressEnter | WaitForCaptcha

  /** What every probe of the recovery pages answers. */
  datatype Page = Page(
    refreshOk: bool,           // the iForgot page loads and shows the Apple ID input
    appleIdInputOk: bool,      // the Apple ID input is found again and filled
    rounds: nat -> SubmitRound,
    dateInput: Visibility,     // the probe of `check()` made by the task
    recheckInput: Visibility,  // the same probe made again at the start of `unlock()`
    phoneNumber: Visibility,   // the probe of `check2FA()`
    dobField: Visibility,      // the probe of `processDOB()`
    dobError: Visibility,
    questions: seq<string>,    // the text of each listed question, a null text read as ''
    answerInputs: nat,
    answersError: Visibility,
    pwdChange: Visibility,
    passwordInputs: nat,
    passwordError: Visibility,
    signInOk: bool,            // the sign-in page loads and both of its fields are filled
    signInError: Visibility,
    devices: Option<nat>,      // the listed expand buttons; None when the devices page fails to load
    removalFault: Option<nat>  // the index of the first removal click that throws
  )

  /** A step's result and the interactions it performed, in order. */
  datatype Outcome = Outcome(ok: bool, actions: seq<Action>)

  // ---------------------------------------------------------------------
  // Security answers

  /** The security answers, keyed by question text, in the iteration order of the object. */
  type Answers = seq<(string, string)>

  /** `getAnswer(question)`: the value of the first key that occurs in the question, else `''`. */
  function GetAnswer(answers: Answers, question: string): (a: string)
    ensures (forall i :: 0 <= i < |answers| ==> !Contains(question, answers[i].0)) ==> a == ""
    ensures a != "" ==> exists i :: 0 <= i < |answers| && Contains(question, answers[i].0) && a == answers[i].1
  {
    if answers == [] then ""
    else if Contains(question, answers[0].0) then answers[0].1
    else GetAnswer(answers[1..], question)
  }

  /** When several keys occur in the question, the earliest one wins. */
  lemma {:induction false} GetAnswerFirstMatch(answers: Answers, question: string, i: nat)
    requires i < |answers| && Contains(question, answers[i].0)
    requires forall j :: 0 <= j < i ==> !Contains(question, answers[j].0)
    ensures GetAnswer(answers, question) == answers[i].1
  {
    if i > 0 {
      assert !Contains(question, answers[0].0);
      GetAnswerFirstMatch(answers[1..], question, i - 1);
    }
  }

  /** An empty key occurs in every question, so it answers all of them from its position on. */
  lemma EmptyKeyMatchesEverything(answers: Answers, question: string, i: nat)
    requires i < |answers| && answers[i].0 == ""
    requires forall j :: 0 <= j < i ==> !Contains(question, answers[j].0)
    ensures GetAnswer(answers, question) == answers[i].1
  {
    EmptyOccursEverywhere(question);
    GetAnswerFirstMatch(answers, question, i);
  }

  // ---------------------------------------------------------------------
  // Probes

  /** `check()`: unlocked unless the date-of-birth input is shown; a probe that throws reads as unlocked. */
  predicate Check(page: Page) {
    page.dateInput != Visible
  }

  /**
   * The `check()` with which `unlock()` starts: a second probe of the same
   * input, which need not answer as the task's own `check()` did.
   */
  predicate Recheck(page: Page) {
    page.recheckInput != Visible
  }

  /** `check2FA()`: two-factor only when the phone number is shown; a probe that throws reads as absent. */
  predicate Check2FA(page: Page) {
    page.phoneNumber == Visible
  }

  // ---------------------------------------------------------------------
  // Login and its captcha submit loop

  const MaxCaptchaAttempts: nat := 10

  /** A pass after which the error is still shown, so the loop goes on. */
  predicate Rejected(r: SubmitRound) {
    r.captcha != ProbeFailed && r.clicked && r.idmsError == Visible
  }

  /** A pass after which the error is gone (or its probe threw), so the loop stops. */
  predicate Passed(r: SubmitRound) {
    r.captcha != ProbeFailed && r.clicked && r.idmsError != Visible
  }

  /** One pass: the pause for a visible captcha, then the click on the primary button when it goes through. */
  function RoundActions(r: SubmitRound): seq<Action> {
    (if r.captcha == Visible then [WaitForCaptcha] else []) + (if r.clicked then [Click(PrimaryButton)] else [])
  }

  /** The submit loop from pass `k` on: a throwing captcha probe or click makes login fail. */
  function SubmitLoop(rounds: nat -> SubmitRound, k: nat): Outcome
    requires k <= MaxCaptchaAttempts
    decreases MaxCaptchaAttempts - k
  {
    if k == MaxCaptchaAttempts then Outcome(true, [])
    else
      var r := rounds(k);
      if r.captcha == ProbeFailed then Outcome(false, [])
      else
        if !r.clicked then Outcome(false, RoundActions(r))
        else if r.idmsError != Visible then Outcome(true, RoundActions(r))
        else
          var rest := SubmitLoop(rounds, k + 1);
          Outcome(rest.ok, RoundActions(r) + rest.actions)
  }

  /** `login()`: refresh, fill the Apple ID, then the submit loop. */
  function LoginRun(username: string, page: Page): Outcome {
    if !page.refreshOk || !page.appleIdInputOk then Outcome(false, [])
    else
      var loop := SubmitLoop(page.rounds, 0);
      Outcome(loop.ok, [Fill(AppleIdInput, username)] + loop.actions)
  }

  /** The number of clicks on the primary button. */
  function Submits(acts: seq<Action>): nat {
    if acts == [] then 0
    else (if acts[0] == Click(PrimaryButton) then 1 else 0) + Submits(acts[1..])
  }

  lemma {:induction false} SubmitsOfJoin(a: seq<Action>, b: seq<Action>)
    ensures Submits(a + b) == Submits(a) + Submits(b)
  {
    if a == [] {
      assert a + b == b;
    } else {
      assert (a + b)[1..] == a[1..] + b;
      SubmitsOfJoin(a[1..], b);
    }
  }

  lemma SubmitsOfRound(r: SubmitRound)
    ensures Submits(RoundActions(r)) == if r.clicked then 1 else 0
  {
    var wait: seq<Action> := if r.captcha == Visible then [WaitForCaptcha] else [];
    var click: seq<Action> := if r.clicked then [Click(PrimaryButton)] else [];
    SubmitsOfJoin(wait, click);
  }

  /** From pass `k` on, the loop clicks at most `10 - k` more times. */
  lemma {:induction false} SubmitLoopBound(rounds: nat -> SubmitRound, k: nat)
    requires k <= MaxCaptchaAttempts
    ensures Submits(SubmitLoop(rounds, k).actions) <= MaxCaptchaAttempts - k
    decreases MaxCaptchaAttempts - k
  {
    if k < MaxCaptchaAttempts {
      var r := rounds(k);
      SubmitsOfRound(r);
      if Rejected(r) {
        SubmitLoopBound(rounds, k + 1);
        SubmitsOfJoin(RoundActions(r), SubmitLoop(rounds, k + 1).actions);
      }
    }
  }

  /** `login()` submits the form at most ten times. */
  lemma LoginClicksAtMostTen(username: string, page: Page)
    ensures Submits(LoginRun(username, page).actions) <= MaxCaptchaAttempts
  {
    if page.refreshOk && page.appleIdInputOk {
      SubmitLoopBound(page.rounds, 0);
      SubmitsOfJoin([Fill(AppleIdInput, username)], SubmitLoop(page.rounds, 0).actions);
    }
  }

  lemma {:induction false} SubmitLoopStopsAtPass(rounds: nat -> SubmitRound, k: nat, m: nat)
    requires k <= m < MaxCaptchaAttempts
    requires forall j :: k <= j < m ==> Rejected(rounds(j))
    requires Passed(rounds(m))
    ensures SubmitLoop(rounds, k).ok
    ensures Submits(SubmitLoop(rounds, k).actions) == m + 1 - k
    decreases m - k
  {
    var r := rounds(k);
    SubmitsOfRound(r);
    if k < m {
      SubmitLoopStopsAtPass(rounds, k + 1, m);
      SubmitsOfJoin(RoundActions(r), SubmitLoop(rounds, k + 1).actions);
    }
  }

  /** The loop stops after the first click that leaves no error shown. */
  lemma LoginStopsAtFirstPass(username: string, page: Page, m: nat)
    requires page.refreshOk && page.appleIdInputOk && m < MaxCaptchaAttempts
    requires forall j :: 0 <= j < m ==> Rejected(page.rounds(j))
    requires Passed(page.rounds(m))
    ensures LoginRun(username, page).ok
    ensures Submits(LoginRun(username, page).actions) == m + 1
  {
    SubmitLoopStopsAtPass(page.rounds, 0, m);
    SubmitsOfJoin([Fill(AppleIdInput, username)], SubmitLoop(page.rounds, 0).actions);
  }

  lemma {:induction false} SubmitLoopExhausted(rounds: nat -> SubmitRound, k: nat)
    requires k <= MaxCaptchaAttempts
    requires forall j :: k <= j < MaxCaptchaAttempts ==> Rejected(rounds(j))
    ensures SubmitLoop(rounds, k).ok
    ensures Submits(SubmitLoop(rounds, k).actions) == MaxCaptchaAttempts - k
    decreases MaxCaptchaAttempts - k
  {
    if k < MaxCaptchaAttempts {
      var r := rounds(k);
      SubmitsOfRound(r);
      SubmitLoopExhausted(rounds, k + 1);
      SubmitsOfJoin(RoundActions(r), SubmitLoop(rounds, k + 1).actions);
    }
  }

  /** Ten clicks that all leave the error shown still count as a successful login. */
  lemma LoginSucceedsAfterTenErrors(username: string, page: Page)
    requires page.refreshOk && page.appleIdInputOk
    requires forall j :: 0 <= j < MaxCaptchaAttempts ==> Rejected(page.rounds(j))
    ensures LoginRun(username, page).ok
    ensures Submits(LoginRun(username, page).actions) == MaxCaptchaAttempts
  {
    SubmitLoopExhausted(page.rounds, 0);
    SubmitsOfJoin([Fill(AppleIdInput, username)], SubmitLoop(page.rounds, 0).actions);
  }

  // ---------------------------------------------------------------------
  // The unlock chain

  /** `processDOB()`: fill the date of birth when its field is shown; an error message rejects it. */
  function DobRun(dob: string, page: Page): Outcome {
    if page.dobField != Visible then Outcome(false, [])
    else Outcome(page.dobError != Visible, [Fill(DateInput, dob), PressEnter])
  }

  /**
   * `processSecurityQuestions()`: only the first two questions are read; a
   * missing question or answer fails before anything is filled; a page with
   * fewer than two answer inputs throws at the first missing one.
   */
  function QuestionsRun(answers: Answers, page: Page): Outcome {
    if |page.questions| < 2 then Outcome(false, [])
    else
      var a1 := GetAnswer(answers, page.questions[0]);
      var a2 := GetAnswer(answers, page.questions[1]);
      if a1 == "" || a2 == "" then Outcome(false, [])
      else if page.answerInputs == 0 then Outcome(false, [])
      else if page.answerInputs == 1 then Outcome(false, [Fill(AnswerInput(0), a1)])
      else Outcome(page.answersError != Visible, [Fill(AnswerInput(0), a1), Fill(AnswerInput(1), a2), PressEnter])
  }

  /** The same text filled into each of the first `n` password inputs, once each and in order. */
  function FillAll(n: nat, text: string): (acts: seq<Action>)
    ensures |acts| == n
    ensures forall i :: 0 <= i < n ==> acts[i] == Fill(PasswordInput(i), text)
  {
    if n == 0 then [] else FillAll(n - 1, text) + [Fill(PasswordInput(n - 1), text)]
  }

  /** `processPassword()` with `newPassword` as the generated password. */
  function PasswordRun(page: Page, newPassword: string): Outcome {
    if page.passwordInputs == 0 then Outcome(false, [])
    else Outcome(page.passwordError != Visible, FillAll(page.passwordInputs, newPassword) + [PressEnter])
  }

  /** The password-change link is clicked when it is shown. */
  function LinkClick(page: Page): seq<Action> {
    if page.pwdChange == Visible then [Click(PasswordChangeLink)] else []
  }

  /** `unlock()`: nothing when already unlocked, else DOB, questions and password, stopping at the first failure. */
  function UnlockRun(dob: string, answers: Answers, page: Page, newPassword: string): Outcome {
    if Recheck(page) then Outcome(true, [])
    else
      var d := DobRun(dob, page);
      if !d.ok then Outcome(false, d.actions)
      else
        var q := QuestionsRun(answers, page);
        if !q.ok then Outcome(false, d.actions + q.actions)
        else
          var p := PasswordRun(page, newPassword);
          Outcome(p.ok, d.actions + q.actions + LinkClick(page) + p.actions)
  }

  /** Whether `unlock()` gets as far as an accepted password reset. */
  predicate UnlockResets(dob: string, answers: Answers, page: Page) {
    !Recheck(page) && DobRun(dob, page).ok && QuestionsRun(answers, page).ok && PasswordRun(page, "").ok
  }

  /** `unlock()` succeeds exactly when the account was not locked or the whole chain went through. */
  lemma UnlockSucceedsIff(dob: string, answers: Answers, page: Page, newPassword: string)
    ensures UnlockRun(dob, answers, page, newPassword).ok <==> Recheck(page) || UnlockResets(dob, answers, page)
  {
  }

  /** Each step of the chain runs only after the previous ones succeeded. */
  lemma UnlockShortCircuits(dob: string, answers: Answers, page: Page, newPassword: string)
    requires !Recheck(page)
    ensures !DobRun(dob, page).ok ==> UnlockRun(dob, answers, page, newPassword).actions == DobRun(dob, page).actions
    ensures DobRun(dob, page).ok && !QuestionsRun(answers, page).ok ==>
              UnlockRun(dob, answers, page, newPassword).actions == DobRun(dob, page).actions + QuestionsRun(answers, page).actions
    ensures page.dobField != Visible ==> UnlockRun(dob, answers, page, newPassword) == Outcome(false, [])
  {
  }

  /** An already unlocked account is not touched. */
  lemma UnlockedAccountUntouched(dob: string, answers: Answers, page: Page, newPassword: string)
    requires page.recheckInput == Hidden || page.recheckInput == ProbeFailed
    ensures UnlockRun(dob, answers, page, newPassword) == Outcome(true, [])
  {
  }

  /** Nothing is filled when fewer than two questions are shown or an answer is not found. */
  lemma QuestionsFailBeforeFilling(answers: Answers, page: Page)
    requires |page.questions| < 2 ||
             GetAnswer(answers, page.questions[0]) == "" || GetAnswer(answers, page.questions[1]) == ""
    ensures QuestionsRun(answers, page) == Outcome(false, [])
  {
  }

  /** Questions beyond the second one make no difference. */
  lemma QuestionsUseFirstTwo(answers: Answers, page: Page, extra: seq<string>)
    requires |page.questions| >= 2
    ensures QuestionsRun(answers, page.(questions := page.questions[..2] + extra)) == QuestionsRun(answers, page)
  {
    var p2 := page.(questions := page.questions[..2] + extra);
    assert p2.questions[0] == page.questions[0] && p2.questions[1] == page.questions[1];
  }

  // ---------------------------------------------------------------------
  // Sign-in and device removal

  /** `loginAppleId()`: account name and the current password into the sign-in form; an error message fails it. */
  function SignInRun(username: string, password: string, page: Page): Outcome {
    if !page.signInOk then Outcome(false, [])
    else Outcome(page.signInError != Visible, [Fill(AccountNameField, username), PressEnter, Fill(PasswordField, password), PressEnter])
  }

  /** The three clicks that remove the `i`-th listed device. */
  function DeviceClicks(i: nat): seq<Action> {
    [Click(DeviceExpand(i)), Click(SecondaryButton), Click(RemoveButton)]
  }

  /** The clicks that remove the first `n` listed devices, in list order. */
  function RemovalClicks(n: nat): (acts: seq<Action>)
    ensures |acts| == 3 * n
  {
    if n == 0 then [] else RemovalClicks(n - 1) + DeviceClicks(n - 1)
  }

  lemma {:induction false} RemovalClicksPrefix(i: nat, n: nat)
    requires i <= n
    ensures RemovalClicks(n)[..3 * i] == RemovalClicks(i)
    decreases n
  {
    if i < n {
      RemovalClicksPrefix(i, n - 1);
      assert RemovalClicks(n)[..3 * (n - 1)] == RemovalClicks(n - 1);
    }
  }

  /** Part way through the `i`-th device, the clicks made are a prefix of the whole removal. */
  lemma RemovalClicksMidway(i: nat, j: nat, n: nat)
    requires i < n && j <= 3
    ensures RemovalClicks(n)[..3 * i + j] == RemovalClicks(i) + DeviceClicks(i)[..j]
  {
    RemovalClicksPrefix(i + 1, n);
    PrefixOfPrefix(RemovalClicks(n), 3 * i + 3, 3 * i + j);
    PrefixOfAppend(RemovalClicks(i), DeviceClicks(i), j);
  }

  /** Each listed device is expanded exactly once, and in list order. */
  lemma {:induction false} EachDeviceExpandedOnce(n: nat, j: nat, i: nat)
    requires j < |RemovalClicks(n)|
    ensures RemovalClicks(n)[j] == Click(DeviceExpand(i)) <==> i < n && j == 3 * i
    decreases n
  {
    if n > 0 {
      var prev := RemovalClicks(n - 1);
      assert RemovalClicks(n) == prev + DeviceClicks(n - 1);
      if j < |prev| {
        EachDeviceExpandedOnce(n - 1, j, i);
      }
    }
  }

  predicate RemovalFaults(page: Page, n: nat) {
    page.removalFault.Some? && page.removalFault.value < 3 * n
  }

  /** `deleteDevices()`: each listed device in turn; a click that throws ends it with failure. */
  function RemovalRun(page: Page): Outcome {
    match page.devices
    case None => Outcome(false, [])
    case Some(n) =>
      if RemovalFaults(page, n) then Outcome(false, RemovalClicks(n)[..page.removalFault.value])
      else Outcome(true, RemovalClicks(n))
  }

  /** An empty device list means success without a single click. */
  lemma NoDevicesNoClicks(page: Page)
    requires page.devices == Some(0)
    ensures RemovalRun(page) == Outcome(true, [])
  {
  }

  // ---------------------------------------------------------------------
  // The service

  class AppleIdService {
    const username: string
    const dob: string
    const answers: Answers
    const page: Page
    /** The account password: the configured one until a reset is accepted. */
    var password: string
    /** The form interactions performed so far. */
    var actions: seq<Action>

    /** The service bound to the page of an open browser session. */
    constructor (username: string, password: string, dob: string, answers: Answers, page: Page)
      ensures this.username == username && this.password == password && this.dob == dob
      ensures this.answers == answers && this.page == page && actions == []
    {
      this.username := username;
      this.password := password;
      this.dob := dob;
      this.answers := answers;
      this.page := page;
      actions := [];
    }

    /** `login()`: a failed refresh returns false before touching the form. */
    method Login() returns (ok: bool)
      modifies this`actions
      ensures ok == LoginRun(username, page).ok
      ensures actions == old(actions) + LoginRun(username, page).actions
    {
      if !page.refreshOk || !page.appleIdInputOk {
        return false;
      }
      actions := actions + [Fill(AppleIdInput, username)];
      ghost var expected := old(actions) + LoginRun(username, page).actions;
      ConcatAssoc(old(actions), [Fill(AppleIdInput, username)], SubmitLoop(page.rounds, 0).actions);
      var captchaAttempts := 0;
      while captchaAttempts < MaxCaptchaAttempts
        invariant captchaAttempts <= MaxCaptchaAttempts
        invariant SubmitLoop(page.rounds, 0).ok == SubmitLoop(page.rounds, captchaAttempts).ok
        invariant expected == actions + SubmitLoop(page.rounds, captchaAttempts).actions
        decreases MaxCaptchaAttempts - captchaAttempts
      {
        var round := page.rounds(captchaAttempts);
        if round.captcha == ProbeFailed {
          return false;
        }
        ghost var before := actions;
        actions := actions + RoundActions(round);
        if !round.clicked {
          return false;
        }
        if round.idmsError != Visible {
          break;
        }
        ConcatAssoc(before, RoundActions(round), SubmitLoop(page.rounds, captchaAttempts + 1).actions);
        captchaAttempts := captchaAttempts + 1;
      }
      return true;
    }

    /** `processDOB()`. */
    method ProcessDob() returns (ok: bool)
      modifies this`actions
      ensures ok == DobRun(dob, page).ok
      ensures actions == old(actions) + DobRun(dob, page).actions
    {
      if page.dobField != Visible {
        return false;
      }
      actions := actions + [Fill(DateInput, dob), PressEnter];
      ok := page.dobError != Visible;
    }

    /** `processSecurityQuestions()`. */
    method ProcessSecurityQuestions() returns (ok: bool)
      modifies this`actions
      ensures ok == QuestionsRun(answers, page).ok
      ensures actions == old(actions) + QuestionsRun(answers, page).actions
    {
      if |page.questions| < 2 {
        return false;
      }
      var answer1 := GetAnswer(answers, page.questions[0]);
      var answer2 := GetAnswer(answers, page.questions[1]);
      if answer1 == "" || answer2 == "" {
        return false;
      }
      if page.answerInputs < 1 {
        return false;
      }
      actions := actions + [Fill(AnswerInput(0), answer1)];
      if page.answerInputs < 2 {
        return false;
      }
      actions := actions + [Fill(AnswerInput(1), answer2), PressEnter];
      ok := page.answersError != Visible;
    }

    /**
     * `processPassword()`: with no password input it fails and changes
     * nothing; otherwise it fills one generated password into every input and
     * keeps it as the account password only when no error message appears.
     */
    method ProcessPassword(random: seq<real>) returns (ok: bool)
      requires Password.Yields(random)
      modifies this`actions, this`password
      ensures ok == PasswordRun(page, Password.Generated(random).value).ok
      ensures actions == old(actions) + PasswordRun(page, Password.Generated(random).value).actions
      ensures password == if ok then Password.Generated(random).value else old(password)
    {
      if page.passwordInputs == 0 {
        return false;
      }
      var newPassword := Password.GeneratePassword(random);
      for i := 0 to page.passwordInputs
        invariant actions == old(actions) + FillAll(i, newPassword)
        invariant password == old(password)
      {
        ConcatAssoc(old(actions), FillAll(i, newPassword), [Fill(PasswordInput(i), newPassword)]);
        actions := actions + [Fill(PasswordInput(i), newPassword)];
      }
      ConcatAssoc(old(actions), FillAll(page.passwordInputs, newPassword), [PressEnter]);
      actions := actions + [PressEnter];
      if page.passwordError == Visible {
        return false;
      }
      password := newPassword;
      return true;
    }

    /** `unlock()`. */
    method Unlock(random: seq<real>) returns (ok: bool)
      requires Password.Yields(random)
      modifies this`actions, this`password
      ensures ok == UnlockRun(dob, answers, page, Password.Generated(random).value).ok
      ensures actions == old(actions) + UnlockRun(dob, answers, page, Password.Generated(random).value).actions
      ensures password == if UnlockResets(dob, answers, page) then Password.Generated(random).value else old(password)
    {
      if Recheck(page) {
        return true;
      }
      ghost var d := DobRun(dob, page).actions;
      ghost var q := QuestionsRun(answers, page).actions;
      ghost var p := PasswordRun(page, Password.Generated(random).value).actions;
      ok := ProcessDob();
      if !ok {
        return false;
      }
      ok := ProcessSecurityQuestions();
      ConcatAssoc(old(actions), d, q);
      assert actions == old(actions) + (d + q);
      if !ok {
        return false;
      }
      if page.pwdChange == Visible {
        actions := actions + [Click(PasswordChangeLink)];
      }
      ConcatAssoc(old(actions), d + q, LinkClick(page));
      assert actions == old(actions) + (d + q + LinkClick(page));
      ok := ProcessPassword(random);
      ConcatAssoc(old(actions), d + q + LinkClick(page), p);
      assert actions == old(actions) + (d + q + LinkClick(page) + p);
    }

    /** `loginAppleId()`: signs in with the current password, the new one after an accepted reset. */
    method LoginAppleId() returns (ok: bool)
      modifies this`actions
      ensures ok == SignInRun(username, password, page).ok
      ensures actions == old(actions) + SignInRun(username, password, page).actions
    {
      if !page.signInOk {
        return false;
      }
      actions := actions + [Fill(AccountNameField, username), PressEnter, Fill(PasswordField, password), PressEnter];
      ok := page.signInError != Visible;
    }

    /** One click of the removal loop, the `k`-th; it throws when the page says so. */
    method RemovalClick(target: Target, k: nat) returns (ok: bool)
      modifies this`actions
      ensures ok == (page.removalFault != Some(k))
      ensures actions == if ok then old(actions) + [Click(target)] else old(actions)
    {
      ok := page.removalFault != Some(k);
      if ok {
        actions := actions + [Click(target)];
      }
    }

    /** The three clicks that remove the `i`-th device; `clicks` is how many went through before one threw. */
    method RemoveDevice(i: nat) returns (clicks: nat)
      modifies this`actions
      ensures clicks <= 3
      ensures actions == old(actions) + DeviceClicks(i)[..clicks]
      ensures clicks < 3 ==> page.removalFault == Some(3 * i + clicks)
      ensures clicks == 3 ==> !(page.removalFault.Some? && 3 * i <= page.removalFault.value < 3 * i + 3)
    {
      var targets := DeviceClicks(i);
      clicks := 0;
      while clicks < 3
        invariant clicks <= 3
        invariant actions == old(actions) + targets[..clicks]
        invariant !(page.removalFault.Some? && 3 * i <= page.removalFault.value < 3 * i + clicks)
      {
        var ok := RemovalClick(targets[clicks].target, 3 * i + clicks);
        if !ok {
          return;
        }
        assert targets[..clicks + 1] == targets[..clicks] + [targets[clicks]];
        clicks := clicks + 1;
      }
    }

    /** `deleteDevices()`. */
    method DeleteDevices() returns (ok: bool)
      modifies this`actions
      ensures ok == RemovalRun(page).ok
      ensures actions == old(actions) + RemovalRun(page).actions
    {
      if page.devices.None? {
        return false;
      }
      var n := page.devices.value;
      if n == 0 {
        return true;
      }
      for i := 0 to n
        invariant actions == old(actions) + RemovalClicks(i)
        invariant !RemovalFaults(page, i)
      {
        var clicks := RemoveDevice(i);
        ConcatAssoc(old(actions), RemovalClicks(i), DeviceClicks(i)[..clicks]);
        if clicks < 3 {
          RemovalClicksMidway(i, clicks, n);
          assert RemovalFaults(page, n);
          assert RemovalRun(page).actions == RemovalClicks(i) + DeviceClicks(i)[..clicks];
          return false;
        }
        assert RemovalClicks(i + 1) == RemovalClicks(i) + DeviceClicks(i)[..clicks];
      }
      assert RemovalRun(page) == Outcome(true, RemovalClicks(n));
      return true;
    }
  }
}
