/** The answer list: every key is shown, a value only when its answer is marked to be shown. */
module AnswersView {

  /** What a hidden value is replaced with. */
  const Mask := "????"

  datatype Answer = Answer(key: string, value: string, show: bool)

  datatype AnswerRow = AnswerRow(key: string, text: string)

  function RenderAnswers(answers: seq<Answer>): (rows: seq<AnswerRow>)
    ensures |rows| == |answers|
    ensures forall i :: 0 <= i < |rows| ==> rows[i].key == answers[i].key
    ensures forall i :: 0 <= i < |rows| ==> answers[i].show ==> rows[i].text == answers[i].value
    ensures forall i :: 0 <= i < |rows| ==> !answers[i].show ==> rows[i].text == Mask
  {
    seq(|answers|, i requires 0 <= i < |answers| =>
      AnswerRow(answers[i].key, if answers[i].show then answers[i].value else Mask))
  }

  /** A hidden answer's value never appears in its row (unless the value is the mask itself). */
  lemma HiddenValueNeverShown(answers: seq<Answer>, i: nat)
    requires i < |answers| && !answers[i].show && answers[i].value != Mask
    ensures RenderAnswers(answers)[i].text != answers[i].value
  {
  }
}
