/**
 * The feedback dialog: a two-page form (pick a kind, then write and
 * optionally rate) whose submit checks the input, stores one row and
 * resets the form.
 */
module FeedbackDialog {
  import opened Wrappers
  import opened Text

  datatype FeedbackKind = Bug | Feature | General | Rating

  function KindName(k: FeedbackKind): string {
    match k
    case Bug => "bug"
    case Feature => "feature"
    case General => "general"
    case Rating => "rating"
  }

  /** The browser facts stored with the row. */
  datatype PageContext = PageContext(pathname: string, userAgent: string, width: nat, height: nat)

  /** One `user_feedback` row. */
  datatype FeedbackRow = FeedbackRow(userId: Option<string>, feedbackType: string, message: string,
                                     rating: Option<nat>, pageUrl: string, userAgent: string, screenSize: string)

  /** The toasts of a submit. */
  datatype Toast = EnterFeedback | SelectRating | ThankYou | SubmitFailed {
    function Title(): string {
      match this
      case EnterFeedback => "Please enter your feedback"
      case SelectRating => "Please select a rating"
      case ThankYou => "Thank you for your feedback!"
      case SubmitFailed => "Failed to submit feedback"
    }

    predicate Destructive() { !ThankYou? }
  }

  /** Why a submit is refused before anything is sent, if it is. */
  function Refusal(kind: FeedbackKind, message: string, rating: nat): Option<Toast>
  {
    if Trim(message) == "" && kind != Rating then Some(EnterFeedback)
    else if kind == Rating && rating == 0 then Some(SelectRating)
    else None
  }

  /** A blank message is refused unless rating, a missing rating is refused for rating feedback, and nothing else is. */
  lemma RefusalMeaning(kind: FeedbackKind, message: string, rating: nat)
    ensures Refusal(kind, message, rating) == Some(EnterFeedback) <==> IsBlank(message) && kind != Rating
    ensures Refusal(kind, message, rating) == Some(SelectRating) <==> kind == Rating && rating == 0
    ensures Refusal(kind, message, rating).None? <==>
              (kind == Rating ==> rating != 0) && (kind != Rating ==> !IsBlank(message))
  {
  }

  /** The row a submit inserts: trimmed message, and the rating only for rating feedback. */
  function RowFor(userId: Option<string>, kind: FeedbackKind, message: string, rating: nat, page: PageContext): (row: FeedbackRow)
    ensures row.rating.Some? <==> kind == Rating
    ensures row.rating.Some? ==> row.rating.value == rating
    ensures row.message == Trim(message) && row.feedbackType == KindName(kind) && row.userId == userId
  {
    FeedbackRow(userId, KindName(kind), Trim(message), if kind == Rating then Some(rating) else None,
                page.pathname, page.userAgent,
                DecimalString(page.width) + "x" + DecimalString(page.height))
  }

  /** A stored row never holds a blank message unless it is a rating, and never a rating of 0. */
  lemma StoredRowsAreMeaningful(userId: Option<string>, kind: FeedbackKind, message: string, rating: nat, page: PageContext)
    requires Refusal(kind, message, rating).None?
    ensures var row := RowFor(userId, kind, message, rating, page);
            && (kind != Rating ==> row.message != "" && row.rating.None?)
            && (kind == Rating ==> row.rating.Some? && row.rating.value > 0)
  {
  }

  /** What the form holds: the kind, the message, the rating, the page and whether it is open. */
  datatype Form = Form(kind: FeedbackKind, message: string, rating: nat, page: nat, open: bool)

  /** A rating is one of the five stars, or 0 for none; the form has two pages. */
  predicate ValidForm(f: Form) {
    f.rating <= 5 && (f.page == 1 || f.page == 2)
  }

  /** The state a reset leaves: empty message, no rating, general feedback, first page. */
  function ResetForm(f: Form): (r: Form)
    ensures ValidForm(r) && r.open == f.open
  {
    Form(General, "", 0, 1, f.open)
  }

  /** What a submit leaves: the form, the row it sent (if any) and the toast it raised. */
  datatype Submitted = Submitted(form: Form, sent: Option<FeedbackRow>, toast: Toast)

  /** What a submit does to the form, the row it sends and the toast it raises. */
  function SubmitStep(f: Form, userId: Option<string>, ctx: PageContext, inserted: bool): Submitted
  {
    match Refusal(f.kind, f.message, f.rating)
    case Some(t) => Submitted(f, None, t)
    case None =>
      var row := RowFor(userId, f.kind, f.message, f.rating, ctx);
      if inserted then Submitted(ResetForm(f).(open := false), Some(row), ThankYou)
      else Submitted(f, Some(row), SubmitFailed)
  }

  /**
   * A refused submit sends nothing and keeps the form; an accepted one sends
   * exactly its row, then resets and closes the form on success and keeps
   * everything entered on failure.
   */
  lemma SubmitOutcomes(f: Form, userId: Option<string>, ctx: PageContext, inserted: bool)
    requires ValidForm(f)
    ensures var Submitted(g, sent, toast) := SubmitStep(f, userId, ctx, inserted);
            && ValidForm(g)
            && (sent.None? <==> Refusal(f.kind, f.message, f.rating).Some?)
            && (sent.None? ==> g == f && toast.Destructive())
            && (sent.Some? ==> sent.value == RowFor(userId, f.kind, f.message, f.rating, ctx))
            && (sent.Some? && inserted ==> g == Form(General, "", 0, 1, false) && toast == ThankYou)
            && (sent.Some? && !inserted ==> g == f && toast == SubmitFailed)
  {
  }

  class Dialog {
    var kind: FeedbackKind
    var message: string
    var rating: nat
    var page: nat
    var loading: bool
    var open: bool

    function State(): Form
      reads this
    {
      Form(kind, message, rating, page, open)
    }

    constructor (open: bool)
      ensures State() == ResetForm(State()) && this.open == open && !loading
    {
      kind := General;
      message := "";
      rating := 0;
      page := 1;
      loading := false;
      this.open := open;
    }

    /** Picking a kind on the first page moves to the second. */
    method PickKind(k: FeedbackKind)
      modifies this
      ensures State() == old(State()).(kind := k, page := 2)
      ensures loading == old(loading)
    {
      kind := k;
      page := 2;
    }

    /** Back returns to the first page and keeps what was entered. */
    method Back()
      modifies this
      ensures State() == old(State()).(page := 1)
      ensures loading == old(loading)
    {
      page := 1;
    }

    /** Typing into the text area. */
    method Type(text: string)
      modifies this
      ensures State() == old(State()).(message := text)
      ensures loading == old(loading)
    {
      message := text;
    }

    /** One of the five stars. */
    method SelectStar(star: nat)
      requires 1 <= star <= 5
      modifies this
      ensures State() == old(State()).(rating := star)
      ensures loading == old(loading)
    {
      rating := star;
    }

    /** `handleReset`. */
    method Reset()
      modifies this
      ensures State() == ResetForm(old(State()))
      ensures loading == old(loading)
    {
      message := "";
      rating := 0;
      kind := General;
      page := 1;
    }

    /**
     * `handleSubmit`: `inserted` is whether the insert succeeded; a request
     * that was sent has finished loading when it returns.
     */
    method Submit(userId: Option<string>, ctx: PageContext, inserted: bool) returns (sent: Option<FeedbackRow>, toast: Toast)
      modifies this
      ensures SubmitStep(old(State()), userId, ctx, inserted) == Submitted(State(), sent, toast)
      ensures sent.None? ==> loading == old(loading)
      ensures sent.Some? ==> !loading
    {
      var refusal := Refusal(kind, message, rating);
      if refusal.Some? {
        return None, refusal.value;
      }
      var row := RowFor(userId, kind, message, rating, ctx);
      loading := true;
      sent := Some(row);
      if inserted {
        toast := ThankYou;
        Reset();
        open := false;
      } else {
        toast := SubmitFailed;
      }
      loading := false;
    }

    /** The dialog's open-change handler: closing it resets the form. */
    method SetOpen(isOpen: bool)
      modifies this
      ensures State() == (if isOpen then old(State()) else ResetForm(old(State()))).(open := isOpen)
      ensures loading == old(loading)
    {
      if !isOpen {
        Reset();
      }
      open := isOpen;
    }
  }
}
