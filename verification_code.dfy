/**
 * The six-slot verification-code editor (src/components/VerificationCodeScreen.tsx):
 * typing into one slot, backspace focus, pasting a whole code, the length
 * guard before verifying, and the username sent with the code.
 *
 * A slot is a string, `""` or one digit. `/^\d+$/` is "non-empty and only
 * ASCII digits". Focus moves are returned as the index to focus.
 */
module VerificationCode {
  import opened Wrappers

  const Slots := 6

  predicate IsDigit(c: char) {
    '0' <= c <= '9'
  }

  /** `/^\d+$/.test(s)`. */
  predicate AllDigits(s: string) {
    |s| > 0 && forall i :: 0 <= i < |s| ==> IsDigit(s[i])
  }

  predicate ValidSlot(slot: string) {
    slot == "" || (|slot| == 1 && IsDigit(slot[0]))
  }

  /** What the editor always holds: six slots, each empty or one digit. */
  predicate ValidCode(code: seq<string>) {
    |code| == Slots && forall i :: 0 <= i < |code| ==> ValidSlot(code[i])
  }

  function EmptyCode(): (code: seq<string>)
    ensures ValidCode(code) && forall i :: 0 <= i < |code| ==> code[i] == ""
  {
    ["", "", "", "", "", ""]
  }

  /** `value.slice(-1)`. */
  function LastChar(value: string): (s: string)
    ensures |s| <= 1
    ensures value != "" ==> s == [value[|value| - 1]]
  {
    if value == "" then "" else value[|value| - 1..]
  }

  datatype ChangeResult = ChangeResult(code: seq<string>, focus: Option<nat>)

  /** `handleChange(index, value)`. */
  function HandleChange(code: seq<string>, index: nat, value: string): (r: ChangeResult)
    requires index < |code|
    ensures value != "" && !AllDigits(value) ==> r == ChangeResult(code, None)
    ensures value == "" || AllDigits(value) ==>
      && |r.code| == |code|
      && r.code[index] == LastChar(value)
      && (forall j :: 0 <= j < |code| && j != index ==> r.code[j] == code[j])
    ensures ValidCode(code) ==> ValidCode(r.code)
    ensures r.focus.Some? <==> AllDigits(value) && index < Slots - 1
    ensures r.focus.Some? ==> r.focus.value == index + 1
  {
    if value != "" && !AllDigits(value) then ChangeResult(code, None)
    else
      var newCode := code[index := LastChar(value)];
      ChangeResult(newCode, if value != "" && index < Slots - 1 then Some(index + 1) else None)
  }

  /** `handleKeyDown(index, key)`: backspace on an empty slot moves focus back, except from the first slot. */
  function KeyDownFocus(code: seq<string>, index: nat, key: string): (f: Option<nat>)
    requires index < |code|
    ensures f.Some? <==> key == "Backspace" && code[index] == "" && index > 0
    ensures f.Some? ==> f.value == index - 1
  {
    if key == "Backspace" && code[index] == "" && index > 0 then Some(index - 1) else None
  }

  /** `text.slice(0, 6)`. */
  function Prefix(text: string): (p: string)
    ensures |p| == if |text| < Slots then |text| else Slots
    ensures p == text[..|p|]
  {
    if |text| <= Slots then text else text[..Slots]
  }

  /** The slots an accepted paste of `p` fills: one digit each, then empty slots up to six. */
  function PastedSlots(p: string): (code: seq<string>)
    requires AllDigits(p) && |p| <= Slots
    ensures ValidCode(code)
  {
    seq(Slots, i requires 0 <= i < Slots => if i < |p| then [p[i]] else "")
  }

  datatype PasteResult = Rejected | Accepted(code: seq<string>, focus: nat)

  /** `handlePaste(text)`: split the first six characters, pad with empty slots, focus the first empty slot or the last. */
  method HandlePaste(text: string) returns (r: PasteResult)
    ensures !AllDigits(Prefix(text)) ==> r == Rejected
    ensures AllDigits(Prefix(text)) ==>
      && r.Accepted?
      && r.code == PastedSlots(Prefix(text))
      && r.focus == (if |Prefix(text)| < Slots then |Prefix(text)| else Slots - 1)
      && (r.focus < Slots - 1 ==> r.code[r.focus] == "" && forall j :: 0 <= j < r.focus ==> r.code[j] != "")
  {
    var pasted := Prefix(text);
    if !AllDigits(pasted) {
      return Rejected;
    }
    var newCode: seq<string> := seq(|pasted|, i requires 0 <= i < |pasted| => [pasted[i]]);
    while |newCode| < Slots
      invariant |pasted| <= |newCode| <= Slots
      invariant forall i :: 0 <= i < |pasted| ==> newCode[i] == [pasted[i]]
      invariant forall i :: |pasted| <= i < |newCode| ==> newCode[i] == ""
      decreases Slots - |newCode|
    {
      newCode := newCode + [""];
    }
    var code := newCode[..Slots];
    assert code == PastedSlots(pasted);
    assert forall i :: 0 <= i < Slots ==> (code[i] == "" <==> i >= |pasted|);
    var nextEmpty := FirstEmpty(code);
    if |pasted| < Slots {
      assert code[|pasted|] == "";
      assert nextEmpty == |pasted|;
    } else {
      assert nextEmpty == -1;
    }
    var focus := if nextEmpty == -1 then Slots - 1 else nextEmpty;
    return Accepted(code, focus);
  }

  /** `code.findIndex(c => !c)`. */
  function FirstEmpty(code: seq<string>): (k: int)
    ensures -1 <= k < |code|
    ensures k >= 0 ==> code[k] == "" && forall j :: 0 <= j < k ==> code[j] != ""
    ensures k == -1 ==> forall j :: 0 <= j < |code| ==> code[j] != ""
  {
    if code == [] then -1
    else if code[0] == "" then 0
    else
      var k := FirstEmpty(code[1..]);
      if k == -1 then -1 else k + 1
  }

  /** `code.join('')`. */
  function Join(code: seq<string>): string {
    if code == [] then "" else Join(code[..|code| - 1]) + code[|code| - 1]
  }

  /** The number of filled slots. */
  function Filled(code: seq<string>): nat {
    if code == [] then 0 else Filled(code[..|code| - 1]) + (if code[|code| - 1] == "" then 0 else 1)
  }

  lemma {:induction false} JoinLength(code: seq<string>)
    requires forall i :: 0 <= i < |code| ==> ValidSlot(code[i])
    ensures |Join(code)| == Filled(code)
    decreases |code|
  {
    if code != [] {
      JoinLength(code[..|code| - 1]);
    }
  }

  lemma {:induction false} FilledAll(code: seq<string>)
    ensures Filled(code) <= |code|
    ensures Filled(code) == |code| <==> forall i :: 0 <= i < |code| ==> code[i] != ""
    decreases |code|
  {
    if code != [] {
      var init := code[..|code| - 1];
      FilledAll(init);
      if Filled(code) == |code| {
        forall i | 0 <= i < |code| ensures code[i] != "" {
          if i < |init| { assert code[i] == init[i]; }
        }
      }
      if forall i :: 0 <= i < |code| ==> code[i] != "" {
        assert forall i :: 0 <= i < |init| ==> init[i] == code[i];
      }
    }
  }

  /** The `handleVerify` guard: the joined code has exactly six characters. */
  predicate VerifyProceeds(code: seq<string>) {
    |Join(code)| == Slots
  }

  /** The verify button is enabled: no slot is empty (`!code.some(d => !d)`). */
  predicate ButtonEnabled(code: seq<string>) {
    forall i :: 0 <= i < |code| ==> code[i] != ""
  }

  /** The length guard and the button agree: verification proceeds exactly when every slot holds a digit. */
  lemma VerifyIffComplete(code: seq<string>)
    requires ValidCode(code)
    ensures VerifyProceeds(code) <==> ButtonEnabled(code)
  {
    JoinLength(code);
    FilledAll(code);
  }

  /** A full six-digit paste makes the code ready to verify, and the code sent is the pasted text. */
  lemma PasteThenVerify(p: string)
    requires AllDigits(p) && |p| <= Slots
    ensures Join(PastedSlots(p)) == p
    ensures VerifyProceeds(PastedSlots(p)) <==> |p| == Slots
  {
    var code := PastedSlots(p);
    JoinPrefixDigits(p, |p|);
    JoinTrailingEmpty(code, |p|);
    assert p[..|p|] == p;
  }

  lemma {:induction false} JoinPrefixDigits(p: string, n: nat)
    requires AllDigits(p) && n <= |p| <= Slots
    ensures Join(PastedSlots(p)[..n]) == p[..n]
    decreases n
  {
    var code := PastedSlots(p);
    if n > 0 {
      JoinPrefixDigits(p, n - 1);
      assert code[..n][..n - 1] == code[..n - 1];
      assert p[..n] == p[..n - 1] + [p[n - 1]];
    }
  }

  lemma {:induction false} JoinTrailingEmpty(code: seq<string>, n: nat)
    requires n <= |code|
    requires forall i :: n <= i < |code| ==> code[i] == ""
    ensures Join(code) == Join(code[..n])
    decreases |code| - n
  {
    if n < |code| {
      var init := code[..|code| - 1];
      JoinTrailingEmpty(init, n);
      assert init[..n] == code[..n];
    } else {
      assert code[..n] == code;
    }
  }

  /** The username sent with the code: the given one unless missing or empty, else the email up to its first `@`. */
  function VerifyUsername(username: Option<string>, email: string): (u: string)
    ensures username.Some? && username.value != "" ==> u == username.value
    ensures !(username.Some? && username.value != "") ==>
      && |u| <= |email|
      && u == email[..|u|]
      && '@' !in u
      && (|u| < |email| ==> email[|u|] == '@')
  {
    if username.Some? && username.value != "" then username.value else BeforeAt(email)
  }

  /** `email.split('@')[0]`. */
  function BeforeAt(email: string): (p: string)
    ensures |p| <= |email| && p == email[..|p|] && '@' !in p
    ensures |p| < |email| ==> email[|p|] == '@'
  {
    if email == [] then ""
    else if email[0] == '@' then ""
    else [email[0]] + BeforeAt(email[1..])
  }
}
