/** The message composer (components/ChatInput.tsx): the send guard and the draft it clears. */
module ChatInput {
  import opened Wrappers
  import Text

  /** What `handleSend` passes to `onSend` for a draft: its trimmed text, unless that is empty or input is disabled. */
  function Outgoing(text: string, disabled: bool): (r: Option<string>)
    ensures r.Some? <==> !disabled && !Text.AllWhitespace(text)
    ensures r.Some? ==> r.value == Text.Trim(text) && r.value != [] && Text.Trim(r.value) == r.value
  {
    Text.TrimEmptyIff(text);
    Text.TrimIdempotent(text);
    var trimmed := Text.Trim(text);
    if trimmed == [] || disabled then None else Some(trimmed)
  }

  /** `canSend`: the send button is enabled exactly when pressing it would send. */
  function CanSend(text: string, disabled: bool): (r: bool)
    ensures r <==> Outgoing(text, disabled).Some?
  {
    |Text.Trim(text)| > 0 && !disabled
  }

  class Composer {
    var text: string
    var disabled: bool

    constructor (disabled: bool)
      ensures text == "" && this.disabled == disabled
    {
      text, this.disabled := "", disabled;
    }

    /** `onChangeText={setText}`. */
    method OnChangeText(t: string)
      modifies this
      ensures text == t && disabled == old(disabled)
    {
      text := t;
    }

    /**
     * `handleSend`: at most one `onSend`, with the trimmed draft, after which the draft is
     * empty; when nothing is sent the draft is kept.
     */
    method HandleSend() returns (sent: Option<string>)
      modifies this
      ensures sent == Outgoing(old(text), old(disabled))
      ensures sent.Some? <==> CanSend(old(text), old(disabled))
      ensures text == (if sent.Some? then "" else old(text))
      ensures disabled == old(disabled)
    {
      var trimmed := Text.Trim(text);
      if trimmed == [] || disabled {
        sent := None;
        return;
      }
      sent := Some(trimmed);
      text := "";
    }
  }
}
