/**
 * The message composer of v0_design/components/chat-input.tsx: a text value,
 * a send action guarded against blank text and a disabled input, Enter (without
 * Shift) as a shortcut for it, and a textarea that grows with its content up to
 * a cap. The messages handed to `onSend` are recorded in order.
 */
module ChatInput {
  import opened Text

  /** The height cap of the textarea, in pixels. */
  const MAX_HEIGHT := 160

  /** The effect's height: the content's scroll height, capped at `MAX_HEIGHT`. */
  function TextareaHeight(scrollHeight: nat): (h: nat)
    ensures h <= MAX_HEIGHT && h <= scrollHeight
    ensures h == MAX_HEIGHT || h == scrollHeight
  {
    if scrollHeight < MAX_HEIGHT then scrollHeight else MAX_HEIGHT
  }

  /** The send button is enabled: `!(!value.trim() || disabled)`. */
  predicate SendEnabled(value: string, disabled: bool) {
    !Blank(value) && !disabled
  }

  /** What `onSend` may receive: non-empty and already trimmed. */
  predicate Clean(message: string) {
    message != "" && Trim(message) == message
  }

  /** The trimmed form of a text that is not blank is a clean message. */
  lemma TrimmedIsClean(value: string)
    requires !Blank(value)
    ensures Clean(Trim(value))
  {
    TrimIdempotent(value);
  }

  class Composer {
    var value: string
    /** The `disabled` prop. */
    var disabled: bool
    /** The textarea's height in pixels. */
    var height: nat
    /** Every message handed to `onSend`, in order. */
    var sent: seq<string>

    ghost predicate Valid()
      reads this
    {
      forall i :: 0 <= i < |sent| ==> Clean(sent[i])
    }

    constructor (disabled: bool, scrollHeight: nat)
      ensures Valid()
      ensures value == "" && this.disabled == disabled && sent == [] && height == TextareaHeight(scrollHeight)
    {
      value := "";
      this.disabled := disabled;
      height := TextareaHeight(scrollHeight);
      sent := [];
    }

    /** The textarea's `onChange`. */
    method SetValue(v: string)
      modifies this`value
      ensures value == v
    {
      value := v;
    }

    /** The effect that runs after every change of the value, given the content's new scroll height. */
    method Resize(scrollHeight: nat)
      modifies this`height
      ensures height == TextareaHeight(scrollHeight)
    {
      height := TextareaHeight(scrollHeight);
    }

    /**
     * `handleSubmit`: nothing when the value is blank or the input disabled;
     * otherwise the trimmed value goes to `onSend` and the value is cleared.
     * Something is sent exactly when the send button is enabled.
     */
    method HandleSubmit()
      requires Valid()
      modifies this`value, this`sent
      ensures Valid()
      ensures !SendEnabled(old(value), disabled) ==> value == old(value) && sent == old(sent)
      ensures SendEnabled(old(value), disabled) ==> sent == old(sent) + [Trim(old(value))] && value == ""
    {
      if Blank(value) || disabled {
        return;
      }
      var message := Trim(value);
      TrimmedIsClean(value);
      sent := sent + [message];
      value := "";
    }

    /** `handleKeyDown`: Enter without Shift prevents the default newline and submits; any other key does nothing here. */
    method HandleKeyDown(key: string, shiftKey: bool) returns (preventDefault: bool)
      requires Valid()
      modifies this`value, this`sent
      ensures Valid()
      ensures preventDefault <==> key == "Enter" && !shiftKey
      ensures !preventDefault || !SendEnabled(old(value), disabled) ==> value == old(value) && sent == old(sent)
      ensures preventDefault && SendEnabled(old(value), disabled) ==>
        sent == old(sent) + [Trim(old(value))] && value == ""
    {
      if key == "Enter" && !shiftKey {
        preventDefault := true;
        HandleSubmit();
      } else {
        preventDefault := false;
      }
    }
  }
}
