/**
 * The top-level view and session state (App.tsx): which of the six views is
 * shown, the signed-in user, the last submitted assessment, its analysis
 * and whether an analysis is being generated.
 *
 * The rescue-plan service is not modelled; its answer to a submission is an
 * input of the transition that completes the submission.
 */
module App {
  import opened Types

  datatype View = Landing | SignIn | Assessment | Results | MentorPortal | About

  /** What the session keeps about the signed-in user. */
  datatype SessionUser = SessionUser(name: string, email: string, role: Role)

  /** The outcome of asking the rescue-plan service for an analysis. */
  datatype PlanReply = Generated(analysis: RiskAnalysis) | Failed

  /** The name the sign-in form passes on: an empty name becomes "John Doe" (components/Auth.tsx). */
  function SignInName(typed: string): (name: string)
    ensures name != ""
    ensures typed != "" ==> name == typed
    ensures typed == "" ==> name == "John Doe"
  {
    if typed == "" then "John Doe" else typed
  }

  /**
   * Where a navigation request lands: the assessment is only for a signed-in
   * user, anyone else is sent to the sign-in view; every other request lands
   * where it asked.
   */
  function Destination(target: View, signedIn: bool): (v: View)
    ensures v == Assessment ==> signedIn
    ensures v == target || (target == Assessment && !signedIn)
    ensures v == target || v == SignIn
  {
    if target == Assessment && !signedIn then SignIn else target
  }

  class AppState {
    var view: View
    var user: Option<SessionUser>
    var studentData: Option<StudentData>
    var analysis: Option<RiskAnalysis>
    var isLoading: bool
    /** The data the current analysis was generated for. */
    ghost var analysedData: Option<StudentData>
    /** The data of the submission in flight, if any. */
    ghost var pending: Option<StudentData>

    /**
     * The invariant of every state the application reaches: an analysis
     * always belongs to some submitted data, the assessment view is only
     * shown to a signed-in user, the stored data is that of the submission
     * in flight while one is, and the results view shows the submitted data
     * together with the analysis generated for exactly that data.
     */
    ghost predicate Consistent()
      reads this
    {
      && (analysis.Some? <==> analysedData.Some?)
      && (analysis.Some? ==> studentData.Some?)
      && (view == Assessment ==> user.Some?)
      && (isLoading ==> pending.Some? && studentData == pending)
      && (view == Results ==> analysis.Some? && studentData.Some? && analysedData == studentData)
    }

    /** The render guard of the results view. */
    predicate ResultsShown()
      reads this
    {
      view == Results && analysis.Some? && studentData.Some?
    }

    constructor ()
      ensures view == Landing
      ensures user == None && studentData == None && analysis == None
      ensures !isLoading
      ensures Consistent()
    {
      view := Landing;
      user := None;
      studentData := None;
      analysis := None;
      isLoading := false;
      analysedData := None;
      pending := None;
    }

    /** A completed sign-in: remember the user and return to the landing view. */
    method Login(name: string, role: Role, email: string)
      modifies this
      ensures user == Some(SessionUser(name, email, role))
      ensures view == Landing
      ensures studentData == old(studentData) && analysis == old(analysis) && isLoading == old(isLoading)
      ensures analysedData == old(analysedData) && pending == old(pending)
      ensures old(Consistent()) ==> Consistent()
    {
      user := Some(SessionUser(name, email, role));
      view := Landing;
    }

    /** The sign-in form's submit button: an empty name signs in as "John Doe". */
    method SubmitSignInForm(typed: string, role: Role, email: string)
      modifies this
      ensures user.Some? && user.value.name != ""
      ensures user == Some(SessionUser(SignInName(typed), email, role))
      ensures view == Landing
      ensures studentData == old(studentData) && analysis == old(analysis) && isLoading == old(isLoading)
      ensures old(Consistent()) ==> Consistent()
    {
      Login(SignInName(typed), role, email);
    }

    /** "Sign Out": forget the user and the analysis, keep the submitted data. */
    method Logout()
      modifies this
      ensures user == None && analysis == None
      ensures view == Landing
      ensures studentData == old(studentData) && isLoading == old(isLoading)
      ensures old(Consistent()) ==> Consistent()
    {
      user := None;
      analysis := None;
      analysedData := None;
      view := Landing;
    }

    /** A navigation request, gated for the assessment view. */
    method Navigate(target: View)
      modifies this`view
      ensures view == Destination(target, user.Some?)
      ensures target == Assessment && user.None? ==> view == SignIn
      ensures target != Assessment || user.Some? ==> view == target
      ensures old(Consistent()) && target != Results ==> Consistent()
    {
      if target == Assessment && user.None? {
        view := SignIn;
      } else {
        view := target;
      }
    }

    /** "Sign In" in the navigation bar, on the landing page and in the mentor portal. */
    method ShowSignIn()
      modifies this`view
      ensures view == SignIn
      ensures old(Consistent()) ==> Consistent()
    {
      view := SignIn;
    }

    /**
     * The first half of a submission: start loading and keep the submitted
     * data. Its only caller, the form's primary button, is disabled while
     * loading, so no submission is in flight.
     */
    method BeginSubmission(data: StudentData)
      requires !isLoading
      modifies this
      ensures isLoading
      ensures studentData == Some(data) && pending == Some(data)
      ensures view == old(view) && user == old(user) && analysis == old(analysis)
      ensures analysedData == old(analysedData)
      ensures old(Consistent()) && old(view) != Results ==> Consistent()
    {
      isLoading := true;
      studentData := Some(data);
      pending := Some(data);
    }

    /** The second half: on a reply show its analysis, on a failure stay where we are; loading ends either way. */
    method FinishSubmission(reply: PlanReply)
      requires isLoading
      modifies this
      ensures !isLoading && pending == None
      ensures user == old(user) && studentData == old(studentData)
      ensures reply.Generated? ==> analysis == Some(reply.analysis) && view == Results
      ensures reply.Generated? ==> analysedData == old(pending)
      ensures reply.Failed? ==> analysis == old(analysis) && view == old(view) && analysedData == old(analysedData)
      ensures old(Consistent()) ==> Consistent()
    {
      if reply.Generated? {
        analysis := Some(reply.analysis);
        analysedData := pending;
        view := Results;
      }
      isLoading := false;
      pending := None;
    }

    /** A whole submission of the assessment form, given the service's reply. */
    method SubmitAssessment(data: StudentData, reply: PlanReply)
      requires !isLoading
      modifies this
      ensures studentData == Some(data)
      ensures !isLoading
      ensures user == old(user)
      ensures reply.Generated? ==> analysis == Some(reply.analysis) && view == Results && ResultsShown()
      ensures reply.Generated? ==> analysedData == Some(data)
      ensures reply.Failed? ==> analysis == old(analysis) && view == old(view)
      ensures old(Consistent()) && old(view) != Results ==> Consistent()
    {
      BeginSubmission(data);
      FinishSubmission(reply);
    }
  }

  /** Signing in and then starting the assessment always reaches the form, never the sign-in view. */
  method SignInThenStart(app: AppState, name: string, role: Role, email: string)
    modifies app
    ensures app.view == Assessment
    ensures old(app.Consistent()) ==> app.Consistent()
  {
    app.Login(name, role, email);
    app.Navigate(Assessment);
  }
}
