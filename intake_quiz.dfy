/** The tutoring intake quiz (IntakeQuiz.tsx): five steps, a subject picker and a one-question
    challenge. */
module IntakeQuiz {
  import opened Types
  import opened Lists

  /** The answers the quiz collects. */
  datatype QuizResult = QuizResult(
    childName: string,
    childAge: string,
    grade: string,
    subjects: seq<string>,
    strengths: string,
    struggles: string,
    testScore: int,
    safetyNotes: string,
    parentName: string)

  /** The answers the quiz starts from. */
  const InitialAnswers := QuizResult("", "", "Grade 1", [], "", "", 0, "", "")

  /** The challenge asks for 10 + 5: the right answer scores 100, any other 0. */
  function Score(answer: int): (r: int)
    ensures r == 100 <==> answer == 10 + 5
    ensures r == 0 || r == 100
  {
    if answer == 15 then 100 else 0
  }

  /** "Next Step" is greyed out on the first step until the child's name is given. */
  predicate NextDisabled(step: int, d: QuizResult) {
    d.childName == "" && step == 1
  }

  /** The progress bar's width in percent. */
  function ProgressPercent(step: int): (r: int)
    ensures 1 <= step <= 5 ==> 20 <= r <= 100
    ensures step == 5 <==> r == 100
  {
    step * 20
  }

  /** What the Back button does. */
  datatype BackOutcome = StepBack | LeaveQuiz

  class Quiz {
    var step: int
    var answers: QuizResult

    predicate Valid()
      reads this
    {
      1 <= step <= 5 && NoDup(answers.subjects)
    }

    constructor ()
      ensures Valid() && step == 1 && answers == InitialAnswers
    {
      step := 1;
      answers := InitialAnswers;
    }

    /** "Next Step", shown before the last step: one step on, unless it is greyed out. */
    method Next()
      requires Valid() && step < 5
      modifies this`step
      ensures Valid()
      ensures step == AfterNext(old(step), answers)
    {
      if !NextDisabled(step, answers) {
        step := step + 1;
      }
    }

    /** `handleBack`: one step back, or out of the quiz from the first step. */
    method Back() returns (outcome: BackOutcome)
      requires Valid()
      modifies this`step
      ensures Valid()
      ensures outcome == LeaveQuiz <==> old(step) == 1
      ensures step == AfterBack(old(step))
    {
      if step > 1 {
        step := step - 1;
        outcome := StepBack;
      } else {
        outcome := LeaveQuiz;
      }
    }

    /** `toggleSubject`: a chosen subject is dropped, any other is added at the end. */
    method ToggleSubject(subject: string)
      requires Valid()
      modifies this`answers
      ensures Valid()
      ensures answers == old(answers).(subjects := Toggle(old(answers).subjects, subject))
      ensures subject in answers.subjects <==> subject !in old(answers).subjects
    {
      ToggleKeepsNoDup(answers.subjects, subject);
      answers := answers.(subjects := Toggle(answers.subjects, subject));
    }

    /** One of the answer buttons of the challenge on step 3. */
    method Answer(value: int)
      requires Valid() && step == 3
      modifies this`answers
      ensures Valid()
      ensures answers == old(answers).(testScore := Score(value))
    {
      answers := answers.(testScore := Score(value));
    }

    method SetChildName(value: string)
      requires Valid()
      modifies this`answers
      ensures Valid()
      ensures answers == old(answers).(childName := value)
    {
      answers := answers.(childName := value);
    }

    /** "Let's Learn!", shown on the last step, hands the answers on. */
    method Finish() returns (result: QuizResult)
      requires Valid() && step == 5
      ensures result == answers
    {
      result := answers;
    }
  }

  /** A session from start to finish: the child's name on the first step, Next up to the
      challenge, one answer there, and Next up to the last step. The right answer finishes with
      a score of 100 and any other with 0. Without a name the quiz cannot leave its first step
      and nothing is handed on. */
  method TakeQuiz(name: string, answer: int) returns (result: Option<QuizResult>)
    ensures result.None? <==> name == ""
    ensures result.Some? ==> result.value.childName == name && result.value.subjects == []
    ensures result.Some? ==> (result.value.testScore == 100 <==> answer == 10 + 5)
    ensures result.Some? ==> (result.value.testScore == 0 <==> answer != 10 + 5)
  {
    var quiz := new Quiz();
    quiz.SetChildName(name);
    quiz.Next();
    if quiz.step == 1 {
      return None;
    }
    quiz.Next();
    quiz.Answer(answer);
    quiz.Next();
    quiz.Next();
    var answers := quiz.Finish();
    result := Some(answers);
  }

  /** The step after Next. */
  function AfterNext(step: int, d: QuizResult): int {
    if NextDisabled(step, d) then step else step + 1
  }

  /** The step after Back, which from the first step leaves the quiz instead. */
  function AfterBack(step: int): int {
    if step > 1 then step - 1 else step
  }

  /** Back undoes Next, and Next undoes Back unless it lands on a nameless first step. */
  lemma BackUndoesNext(step: int, d: QuizResult)
    requires 1 <= step < 5
    ensures !NextDisabled(step, d) ==> AfterBack(AfterNext(step, d)) == step
    ensures NextDisabled(step, d) <==> AfterNext(step, d) == step
  {
  }

  lemma NextUndoesBack(step: int, d: QuizResult)
    requires 1 < step <= 5
    ensures AfterNext(AfterBack(step), d) == step <==> !(step == 2 && d.childName == "")
  {
  }
}
