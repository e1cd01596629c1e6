/** The four-step listing wizard: KYC, payout details, hostel information and photo
    uploads, followed by a success screen. Each step hands its data to `handleNext`, which
    merges it into the collected form data and either advances or, on the last step,
    submits everything. */
module ListHostel {
  import opened Wrappers
  import Stepper

  const Steps := [
    Stepper.Step("01", "KYC"),
    Stepper.Step("02", "Payout Details"),
    Stepper.Step("03", "Hostel Information"),
    Stepper.Step("04", "Photo Uploads")]

  /** The index of the last step, `steps.length - 1`. */
  const LastStep := |Steps| - 1

  const SubmissionFailed := "Something went wrong during submission"

  /** How `fetch('/api/hostels')` ended: an ok response, a non-ok response, or a thrown
      error with its message. */
  datatype SubmitOutcome = Ok | NotOk | Threw(message: string)

  /** What the page shows under the progress bar. */
  datatype View =
    | Spinner
    | ErrorText(message: string)
    | KycForm | PayoutDetailsForm | HostelInfoForm | PhotoUploadForm
    | SubmissionSuccess
    | Nothing

  /** `renderStep()`: the form of steps 0 to 3, the success screen at 4, nothing otherwise. */
  function StepView(currentStep: int): (v: View)
  {
    if currentStep == 0 then KycForm
    else if currentStep == 1 then PayoutDetailsForm
    else if currentStep == 2 then HostelInfoForm
    else if currentStep == 3 then PhotoUploadForm
    else if currentStep == 4 then SubmissionSuccess
    else Nothing
  }

  /** The page body: the spinner while submitting, else the error when it is a non-empty
      string, else the step view. */
  function Render(currentStep: int, isSubmitting: bool, submissionError: Option<string>): (v: View)
  {
    if isSubmitting then Spinner
    else if submissionError.Some? && submissionError.value != "" then ErrorText(submissionError.value)
    else StepView(currentStep)
  }

  /** The precedence of the three branches, and which steps show a form. */
  lemma RenderPrecedence(currentStep: int, isSubmitting: bool, submissionError: Option<string>)
    ensures isSubmitting ==> Render(currentStep, isSubmitting, submissionError) == Spinner
    ensures Render(currentStep, isSubmitting, submissionError).ErrorText? <==>
      !isSubmitting && submissionError.Some? && submissionError.value != ""
    ensures Render(currentStep, isSubmitting, submissionError) == Nothing <==>
      !isSubmitting && (submissionError.None? || submissionError.value == "")
      && !(0 <= currentStep <= 4)
    ensures Render(currentStep, isSubmitting, submissionError) == SubmissionSuccess ==> currentStep == 4
  {
  }

  /** The page state: the step, the data collected so far, whether a submission is in
      flight, and the last submission's error. `V` is the type of a form field's value. */
  class Wizard<V> {
    var currentStep: int
    var formData: map<string, V>
    var isSubmitting: bool
    var submissionError: Option<string>

    constructor ()
      ensures currentStep == 0 && formData == map[] && !isSubmitting && submissionError == None
    {
      currentStep := 0;
      formData := map[];
      isSubmitting := false;
      submissionError := None;
    }

    /** What the page shows now. */
    function View(): View
      reads this
    {
      Render(currentStep, isSubmitting, submissionError)
    }

    /** `handleNext(data)`: the data is merged in, keys from `data` winning; on the last step
        the merged data is submitted (`payload`) and the step stays, otherwise the step
        advances by one. */
    method HandleNext(data: map<string, V>) returns (payload: Option<map<string, V>>)
      modifies this
      ensures formData == old(formData) + data
      ensures old(currentStep) == LastStep ==>
        && payload == Some(formData)
        && currentStep == old(currentStep)
        && isSubmitting && submissionError == None
      ensures old(currentStep) != LastStep ==>
        && payload == None
        && currentStep == old(currentStep) + 1
        && isSubmitting == old(isSubmitting) && submissionError == old(submissionError)
    {
      formData := formData + data;
      if currentStep == LastStep {
        payload := Some(formData);
        BeginSubmit();
      } else {
        payload := None;
        currentStep := currentStep + 1;
      }
    }

    /** `handlePrev`: one step back, with no lower bound. */
    method HandlePrev()
      modifies this`currentStep
      ensures currentStep == old(currentStep) - 1
    {
      currentStep := currentStep - 1;
    }

    /** The synchronous start of `submitForm`. */
    method BeginSubmit()
      modifies this`isSubmitting, this`submissionError
      ensures isSubmitting && submissionError == None
    {
      isSubmitting := true;
      submissionError := None;
    }

    /** The rest of `submitForm` once the request has ended: an ok response advances to the
        next step, a non-ok response or a thrown error records its message; either way the
        submission is over. */
    method CompleteSubmit(outcome: SubmitOutcome)
      modifies this`currentStep, this`isSubmitting, this`submissionError
      ensures !isSubmitting
      ensures outcome == Ok ==> currentStep == old(currentStep) + 1 && submissionError == old(submissionError)
      ensures outcome == NotOk ==> currentStep == old(currentStep) && submissionError == Some(SubmissionFailed)
      ensures outcome.Threw? ==> currentStep == old(currentStep) && submissionError == Some(outcome.message)
    {
      match outcome {
        case Ok =>
          currentStep := currentStep + 1;
        case NotOk =>
          submissionError := Some(SubmissionFailed);
        case Threw(m) =>
          submissionError := Some(m);
      }
      isSubmitting := false;
    }
  }

  /** A full pass through the wizard: four `handleNext` calls and a successful response
      submit the merged data of all four steps and end on the success screen, with every
      step of the progress bar completed. */
  method FullPass<V>(kyc: map<string, V>, payout: map<string, V>, info: map<string, V>, photos: map<string, V>)
    returns (w: Wizard<V>, payload: Option<map<string, V>>)
    ensures payload == Some(kyc + payout + info + photos)
    ensures w.currentStep == |Steps| && w.View() == SubmissionSuccess
  {
    w := new Wizard<V>();
    var p := w.HandleNext(kyc);
    assert map[] + kyc == kyc;
    p := w.HandleNext(payout);
    p := w.HandleNext(info);
    payload := w.HandleNext(photos);
    w.CompleteSubmit(Ok);
    Stepper.AllCompletedAtEnd(Steps);
  }

  /** A failed submission keeps the photo step, and the page shows the message in place of
      the form, which stays hidden. */
  lemma FailureShowsMessage(message: string)
    requires message != ""
    ensures Render(LastStep, false, Some(message)) == ErrorText(message)
    ensures Render(LastStep, false, Some(SubmissionFailed)) == ErrorText(SubmissionFailed)
  {
  }

  /** A submission whose thrown error has an empty message falls through to the step view:
      the photo form is shown again with no error. */
  lemma EmptyErrorShowsForm()
    ensures Render(LastStep, false, Some("")) == PhotoUploadForm
  {
  }
}
