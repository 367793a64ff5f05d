/**
 * The Go `error` values this core produces or passes on. Only what a caller can
 * observe of them is kept: their text and, for the one sentinel error, its identity.
 */
module Errors {

  datatype Error =
    | Message(text: string)   // an error known only by its text: transport, dial and formatted errors
    | TaskInUnknownState      // the sentinel ErrTaskIsInUnknownState (main.go:60)
  {
    /** The result of calling Error() on the value. */
    function Text(): string
    {
      match this
      case Message(t) => t
      case TaskInUnknownState => TaskUnknownText
    }
  }

  const TaskUnknownText: string := "containerd task is in unknown state"

  /** The prefix fmt.Errorf puts in front of a failed socket probe (main.go:81). */
  const ProbePrefix: string := "containerd: cannot unix dial containerd api service: "

  /** The error reported when the socket probe fails: the prefix followed by the cause's text (`%v`). */
  function ProbeError(cause: Error): (e: Error)
    ensures e.Message? && e != TaskInUnknownState
    ensures |e.Text()| == |ProbePrefix| + |cause.Text()|
    ensures e.Text()[..|ProbePrefix|] == ProbePrefix
    ensures e.Text()[|ProbePrefix|..] == cause.Text()
  {
    Message(ProbePrefix + cause.Text())
  }

  /**
   * The probe error keeps its cause's text, and only that (`%v` formats, it does not wrap):
   * two probe errors are equal exactly when their causes read the same.
   */
  lemma ProbeErrorKeepsCauseText(a: Error, b: Error)
    ensures ProbeError(a) == ProbeError(b) <==> a.Text() == b.Text()
  {
    if ProbeError(a) == ProbeError(b) {
      calc {
        a.Text();
        ProbeError(a).Text()[|ProbePrefix|..];
        ProbeError(b).Text()[|ProbePrefix|..];
        b.Text();
      }
    }
  }
}
