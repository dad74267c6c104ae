/**
 * The question board of Questions.jsx: a daily question quota that depends on the
 * subscription plan, the validation of a new question, the set of questions whose
 * answers are expanded, and the answer form.
 */
module Questions {
  import opened Optional
  import opened Text
  import opened Entities

  /** A daily limit: a number of questions, or `Infinity`. */
  datatype Limit = AtMost(n: nat) | Unlimited

  const Limits: map<string, Limit> :=
    map["FREE" := AtMost(1), "BRONZE" := AtMost(5), "SILVER" := AtMost(10), "GOLD" := Unlimited]

  /** `user?.subscription?.plan || 'FREE'`. */
  function CurrentPlan(plan: Option<string>): (p: string)
    ensures !Truthy(plan) ==> p == "FREE"
    ensures Truthy(plan) ==> p == plan.value
  {
    if Truthy(plan) then plan.value else "FREE"
  }

  /** `limits[currentPlan]`; a name outside the table looks up `undefined` (None). */
  function DailyLimit(plan: string): (r: Option<Limit>)
    ensures plan == "FREE" ==> r == Some(AtMost(1))
    ensures plan == "BRONZE" ==> r == Some(AtMost(5))
    ensures plan == "SILVER" ==> r == Some(AtMost(10))
    ensures plan == "GOLD" ==> r == Some(Unlimited)
    ensures r.None? <==> plan !in {"FREE", "BRONZE", "SILVER", "GOLD"}
  {
    if plan in Limits then Some(Limits[plan]) else None
  }

  /** `questionsToday < dailyLimit`: anything is below Infinity and nothing is below undefined. */
  function CanAsk(questionsToday: int, limit: Option<Limit>): bool {
    match limit
    case None => false
    case Some(Unlimited) => true
    case Some(AtMost(n)) => questionsToday < n
  }

  /** The quota as the plans promise it. */
  lemma AskingQuota(plan: Option<string>, asked: int)
    ensures !Truthy(plan) ==> (CanAsk(asked, DailyLimit(CurrentPlan(plan))) <==> asked < 1)
    ensures plan == Some("FREE") ==> (CanAsk(asked, DailyLimit(CurrentPlan(plan))) <==> asked < 1)
    ensures plan == Some("BRONZE") ==> (CanAsk(asked, DailyLimit(CurrentPlan(plan))) <==> asked < 5)
    ensures plan == Some("SILVER") ==> (CanAsk(asked, DailyLimit(CurrentPlan(plan))) <==> asked < 10)
    ensures plan == Some("GOLD") ==> CanAsk(asked, DailyLimit(CurrentPlan(plan)))
    ensures Truthy(plan) && plan.value !in Limits ==> !CanAsk(asked, DailyLimit(CurrentPlan(plan)))
  {
  }

  /** Asking more never reopens the gate. */
  lemma QuotaIsMonotone(limit: Option<Limit>, asked: int, more: int)
    requires asked <= more
    ensures CanAsk(more, limit) ==> CanAsk(asked, limit)
  {
  }

  const TooShort: string := "Question must be at least 10 characters long."
  const LimitReached: string := "Daily limit reached! Upgrade your plan to ask more questions."

  /** `!questionText.trim() || questionText.length < 10` (the length is of the untrimmed text). */
  predicate QuestionRejected(text: string) {
    Trim(text) == [] || |text| < 10
  }

  /** A question is refused exactly when it is blank or shorter than ten characters. */
  lemma QuestionRule(text: string)
    ensures QuestionRejected(text) <==> IsBlank(text) || |text| < 10
  {
    TrimEmptyIffBlank(text);
  }

  /** The error a failed `POST /posts/ask` leaves: HTTP 429 is the backend's quota. */
  function AskErrorText(e: ApiError): (r: string)
    ensures e.status == Some(429) ==> r == LimitReached
    ensures e.status != Some(429) ==> r == ErrorText(e, "Failed to post question")
  {
    if e.status == Some(429) then LimitReached else ErrorText(e, "Failed to post question")
  }

  /** Copying a set and adding or deleting one element (toggleAnswers). */
  function Toggled(s: set<string>, x: string): (r: set<string>)
    ensures x in r <==> x !in s
    ensures forall y :: y != x ==> (y in r <==> y in s)
  {
    if x in s then s - {x} else s + {x}
  }

  lemma ToggleTwiceRestores(s: set<string>, x: string)
    ensures Toggled(Toggled(s, x), x) == s
  {
  }

  datatype Answer = Answer(dbId: string, text: string)

  class QuestionsPage {
    var plan: Option<string>
    var questionText: string
    var loading: bool
    var error: string
    var questionsToday: int
    var answers: map<string, seq<Answer>>
    var answerTexts: map<string, string>
    var expandedQuestions: set<string>

    constructor (plan: Option<string>)
      ensures this.plan == plan && questionText == "" && !loading && error == ""
      ensures questionsToday == 0 && answers == map[] && answerTexts == map[] && expandedQuestions == {}
    {
      this.plan := plan;
      questionText := "";
      loading := false;
      error := "";
      questionsToday := 0;
      answers := map[];
      answerTexts := map[];
      expandedQuestions := {};
    }

    function CanAskNow(): bool
      reads this
    {
      CanAsk(questionsToday, DailyLimit(CurrentPlan(plan)))
    }

    /**
     * handleAskQuestion. Over the quota, nothing is posted and the user is sent to
     * the plans page if they confirm; a rejected text only sets the error; a posted
     * question clears the text and counts one more question on success.
     */
    method HandleAskQuestion(confirmUpgrade: bool, res: Reply<()>) returns (upgrade: bool, sent: bool)
      modifies this`questionText, this`error, this`loading, this`questionsToday
      ensures sent <==> old(CanAskNow()) && !QuestionRejected(old(questionText))
      ensures upgrade <==> !old(CanAskNow()) && confirmUpgrade
      ensures !old(CanAskNow()) ==>
                questionText == old(questionText) && error == old(error) && loading == old(loading)
      ensures old(CanAskNow()) && QuestionRejected(old(questionText)) ==>
                error == TooShort && questionText == old(questionText) && loading == old(loading)
      ensures !(sent && res.Ok?) ==> questionsToday == old(questionsToday)
      ensures sent && res.Ok? ==> questionText == "" && error == "" && questionsToday == old(questionsToday) + 1
      ensures sent && res.Fail? ==> questionText == old(questionText) && error == AskErrorText(res.err)
      ensures sent ==> !loading
    {
      upgrade, sent := false, false;
      var allowed := CanAskNow();
      var rejected := QuestionRejected(questionText);
      if !allowed {
        upgrade := confirmUpgrade;
        return;
      }
      if rejected {
        error := TooShort;
        return;
      }
      loading := true;
      error := "";
      sent := true;
      match res {
        case Ok(_) =>
          questionText := "";
          questionsToday := questionsToday + 1;
        case Fail(e) =>
          error := AskErrorText(e);
      }
      loading := false;
    }

    /**
     * toggleAnswers: flips whether one question is expanded; answers are fetched
     * only when expanding a question with nothing cached.
     */
    method ToggleAnswers(questionId: string) returns (fetch: bool)
      modifies this
      ensures expandedQuestions == Toggled(old(expandedQuestions), questionId)
      ensures fetch <==> questionId !in old(expandedQuestions) && questionId !in answers
      ensures answers == old(answers) && answerTexts == old(answerTexts) && questionText == old(questionText)
      ensures questionsToday == old(questionsToday) && error == old(error) && loading == old(loading)
      ensures plan == old(plan)
    {
      var newExpanded := expandedQuestions;
      fetch := false;
      if questionId in newExpanded {
        newExpanded := newExpanded - {questionId};
      } else {
        newExpanded := newExpanded + {questionId};
        if questionId !in answers {
          fetch := true;
        }
      }
      expandedQuestions := newExpanded;
    }

    /** fetchAnswers: a loaded list is cached under its question; a failure changes nothing. */
    method FetchAnswers(questionId: string, res: Reply<seq<Answer>>)
      modifies this
      ensures answers == if res.Ok? then old(answers)[questionId := res.data] else old(answers)
      ensures expandedQuestions == old(expandedQuestions) && answerTexts == old(answerTexts)
      ensures questionText == old(questionText) && questionsToday == old(questionsToday)
      ensures error == old(error) && loading == old(loading) && plan == old(plan)
    {
      if res.Ok? {
        answers := answers[questionId := res.data];
      }
    }

    /** handleSubmitAnswer: a missing or blank answer is not sent; a sent one is cleared on success. */
    method HandleSubmitAnswer(questionId: string, res: Reply<()>) returns (sent: bool, refetch: bool)
      modifies this
      ensures sent <==> questionId in old(answerTexts) && !IsBlank(old(answerTexts)[questionId])
      ensures refetch <==> sent && res.Ok?
      ensures answerTexts == if refetch then old(answerTexts)[questionId := ""] else old(answerTexts)
      ensures answers == old(answers) && expandedQuestions == old(expandedQuestions)
      ensures questionText == old(questionText) && questionsToday == old(questionsToday)
      ensures error == old(error) && loading == old(loading) && plan == old(plan)
    {
      sent, refetch := false, false;
      if questionId !in answerTexts || Trim(answerTexts[questionId]) == [] {
        if questionId in answerTexts {
          TrimEmptyIffBlank(answerTexts[questionId]);
        }
        return;
      }
      TrimEmptyIffBlank(answerTexts[questionId]);
      sent := true;
      if res.Ok? {
        answerTexts := answerTexts[questionId := ""];
        refetch := true;
      }
    }
  }
}
