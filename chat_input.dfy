/**
 * The chat input box: a text area whose content is handed, trimmed, to the
 * page's `onSendMessage` callback and then cleared.
 */
module ChatInput {
  import opened Text

  /** A message as the callback may receive it: non-empty with no whitespace at either end. */
  ghost predicate Sendable(m: string) {
    m != [] && Trim(m) == m
  }

  class InputBox {
    /** The text area's content. */
    var input: string
    /** The arguments of every `onSendMessage` call so far, oldest first. */
    var sent: seq<string>

    ghost predicate Valid()
      reads this
    {
      forall k :: 0 <= k < |sent| ==> Sendable(sent[k])
    }

    constructor ()
      ensures Valid() && input == "" && sent == []
    {
      input := "";
      sent := [];
    }

    /** `onChange`: the text area's new value. */
    method Change(value: string)
      requires Valid()
      modifies this
      ensures Valid() && input == value && sent == old(sent)
    {
      input := value;
    }

    /** `handleSubmit`: send the trimmed text unless it is blank, then clear. */
    method Submit()
      requires Valid()
      modifies this
      ensures Valid()
      ensures Blank(old(input)) ==> input == old(input) && sent == old(sent)
      ensures !Blank(old(input)) ==> sent == old(sent) + [Trim(old(input))] && input == ""
    {
      var text := Trim(input);
      if text != "" {
        TrimIdempotent(input);
        assert Sendable(text);
        ghost var before := sent;
        sent := sent + [text];
        assert forall k :: 0 <= k < |sent| ==> sent[k] == if k < |before| then before[k] else text;
        input := "";
      }
    }

    /** `handleKeyPress`: Enter without Shift submits and suppresses the newline; any other key does nothing here. */
    method KeyDown(key: string, shift: bool) returns (prevented: bool)
      requires Valid()
      modifies this
      ensures Valid()
      ensures prevented <==> key == "Enter" && !shift
      ensures !prevented ==> input == old(input) && sent == old(sent)
      ensures prevented && Blank(old(input)) ==> input == old(input) && sent == old(sent)
      ensures prevented && !Blank(old(input)) ==> sent == old(sent) + [Trim(old(input))] && input == ""
    {
      prevented := key == "Enter" && !shift;
      if prevented {
        Submit();
      }
    }

    /** The send button's `disabled={!input.trim()}`. */
    function SendDisabled(): (disabled: bool)
      reads this
      ensures disabled <==> Blank(input)
    {
      Trim(input) == ""
    }
  }
}
