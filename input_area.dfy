/**
 * The message composer: the text typed so far, the files picked for the
 * next message, and the handlers that send, react to the Enter key, add
 * picked files and remove one of them.
 */
module InputArea {
  import ChatArea

  /** The characters `String.prototype.trim` removes: JavaScript white space and line terminators. */
  predicate IsTrimmed(c: char)
  {
    || c == '\t' || c == '\n' || c == '\U{000B}' || c == '\U{000C}' || c == '\r' || c == ' '
    || c == '\U{00A0}' || c == '\U{1680}' || ('\U{2000}' <= c <= '\U{200A}')
    || c == '\U{2028}' || c == '\U{2029}' || c == '\U{202F}' || c == '\U{205F}'
    || c == '\U{3000}' || c == '\U{FEFF}'
  }

  /** Every character is white space. */
  predicate Blank(input: string)
  {
    forall k :: 0 <= k < |input| ==> IsTrimmed(input[k])
  }

  function TrimStart(s: string): (rest: string)
    ensures |rest| <= |s| && rest == s[|s| - |rest|..]
    ensures rest != [] ==> !IsTrimmed(rest[0])
  {
    if s != [] && IsTrimmed(s[0]) then TrimStart(s[1..]) else s
  }

  function TrimEnd(s: string): (rest: string)
    ensures |rest| <= |s| && rest == s[..|rest|]
    ensures rest != [] ==> !IsTrimmed(rest[|rest| - 1])
  {
    if s != [] && IsTrimmed(s[|s| - 1]) then TrimEnd(s[..|s| - 1]) else s
  }

  /** `String.prototype.trim`: white space removed from both ends. */
  function Trim(s: string): string
  {
    TrimEnd(TrimStart(s))
  }

  /** The send guard, which is also the send button's `disabled` condition. */
  predicate SendBlocked(input: string, attachments: seq<ChatArea.PickedFile>, disabled: bool)
  {
    (Trim(input) == "" && |attachments| == 0) || disabled
  }

  /** `removeAttachment(index)`: `filter((_, i) => i !== index)`. */
  function WithoutIndex(files: seq<ChatArea.PickedFile>, index: int): (kept: seq<ChatArea.PickedFile>)
    ensures 0 <= index < |files| ==> kept == files[..index] + files[index + 1..]
    ensures !(0 <= index < |files|) ==> kept == files
    decreases |files|
  {
    if files == [] then []
    else if index == 0 then WithoutIndex(files[1..], -1)
    else [files[0]] + WithoutIndex(files[1..], index - 1)
  }

  /** A message handed to `onSend`: the untrimmed text and the picked files. */
  datatype Sent = Sent(content: string, files: seq<ChatArea.PickedFile>)

  class Composer {
    var input: string
    var attachments: seq<ChatArea.PickedFile>
    /** Every call of `onSend`, in order. */
    var sent: seq<Sent>

    constructor ()
      ensures input == "" && attachments == [] && sent == []
    {
      input := "";
      attachments := [];
      sent := [];
    }

    /** Typing: `setInput(e.target.value)`. */
    method Type(text: string)
      modifies this`input
      ensures input == text
    {
      input := text;
    }

    /** `handleSend`: unless blocked, hands the text as typed and the files on, then clears both. */
    method HandleSend(disabled: bool)
      modifies this
      ensures SendBlocked(old(input), old(attachments), disabled) ==>
        input == old(input) && attachments == old(attachments) && sent == old(sent)
      ensures !SendBlocked(old(input), old(attachments), disabled) ==>
        && sent == old(sent) + [Sent(old(input), old(attachments))]
        && input == "" && attachments == []
    {
      if SendBlocked(input, attachments, disabled) {
        return;
      }
      sent := sent + [Sent(input, attachments)];
      input := "";
      attachments := [];
    }

    /** `handleKeyDown`: Enter without Shift sends; every other key leaves the composer alone. */
    method HandleKeyDown(key: string, shiftKey: bool, disabled: bool)
      modifies this
      ensures key == "Enter" && !shiftKey ==>
        (if SendBlocked(old(input), old(attachments), disabled)
         then input == old(input) && attachments == old(attachments) && sent == old(sent)
         else sent == old(sent) + [Sent(old(input), old(attachments))] && input == "" && attachments == [])
      ensures !(key == "Enter" && !shiftKey) ==>
        input == old(input) && attachments == old(attachments) && sent == old(sent)
    {
      if key == "Enter" && !shiftKey {
        HandleSend(disabled);
      }
    }

    /** `handleFileSelect`: the newly picked files go after the ones already listed. */
    method HandleFileSelect(files: seq<ChatArea.PickedFile>)
      modifies this`attachments
      ensures attachments == old(attachments) + files
      ensures attachments[..|old(attachments)|] == old(attachments)
    {
      attachments := attachments + files;
    }

    /** `removeAttachment(index)`: drops the file at that position, keeping the others in order. */
    method RemoveAttachment(index: int)
      modifies this`attachments
      ensures attachments == WithoutIndex(old(attachments), index)
    {
      attachments := WithoutIndex(attachments, index);
    }
  }

  // ------------------------------------------------------------ lemmas

  /** Removing index i keeps every earlier file in place and shifts every later one down by one. */
  lemma RemoveShifts(files: seq<ChatArea.PickedFile>, index: int)
    requires 0 <= index < |files|
    ensures |WithoutIndex(files, index)| == |files| - 1
    ensures forall k :: 0 <= k < index ==> WithoutIndex(files, index)[k] == files[k]
    ensures forall k :: index <= k < |files| - 1 ==> WithoutIndex(files, index)[k] == files[k + 1]
  {
  }

  lemma {:induction false} TrimStartBlank(s: string)
    ensures TrimStart(s) == "" <==> Blank(s)
    decreases |s|
  {
    if s == [] {
    } else if IsTrimmed(s[0]) {
      TrimStartBlank(s[1..]);
      BlankTail(s);
    } else {
      assert TrimStart(s) == s;
    }
  }

  /** A string whose first character is white space is blank exactly when the rest is. */
  lemma BlankTail(s: string)
    requires s != [] && IsTrimmed(s[0])
    ensures Blank(s) <==> Blank(s[1..])
  {
    if Blank(s[1..]) {
      forall k | 0 < k < |s| ensures IsTrimmed(s[k]) {
        assert s[k] == s[1..][k - 1];
      }
    }
  }

  /** The trimmed input is empty exactly when every character is white space. */
  lemma TrimEmptyIffBlank(s: string)
    ensures Trim(s) == "" <==> Blank(s)
  {
    TrimStartBlank(s);
    var t := TrimStart(s);
    if t != "" {
      TrimEndKeepsNonBlank(t);
    }
  }

  lemma {:induction false} TrimEndKeepsNonBlank(s: string)
    requires s != [] && !IsTrimmed(s[0])
    ensures TrimEnd(s) != ""
    decreases |s|
  {
    if IsTrimmed(s[|s| - 1]) {
      TrimEndKeepsNonBlank(s[..|s| - 1]);
    }
  }

  /**
   * Blank text with no file cannot be sent; a character that is not white
   * space unblocks it, and so does any non-empty list of files.
   */
  lemma BlankInputBlocked(input: string, c: char, files: seq<ChatArea.PickedFile>)
    requires Blank(input)
    requires !IsTrimmed(c)
    ensures SendBlocked(input, [], false)
    ensures !SendBlocked(input + [c], [], false)
    ensures files != [] ==> !SendBlocked(input, files, false)
  {
    var padded := input + [c];
    assert padded[|input|] == c;
    TrimEmptyIffBlank(input);
    TrimEmptyIffBlank(padded);
  }
}
