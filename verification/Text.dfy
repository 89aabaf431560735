/** Text as the program handles it: trimming, splitting, numbers and the small parsers of the
    shell's own commands. */
module Texts {
  import opened Protocol
  import opened Sequences

  predicate IsWhitespace(c: char) {
    var n := c as int;
    || 0x9 <= n <= 0xD || n == 0x20 || n == 0x85 || n == 0xA0 || n == 0x1680
    || 0x2000 <= n <= 0x200A || n == 0x2028 || n == 0x2029 || n == 0x202F || n == 0x205F || n == 0x3000
  }

  predicate IsControl(c: char) {
    var n := c as int;
    n < 0x20 || 0x7F <= n <= 0x9F
  }

  function Trim(name: string): (r: string)
    ensures |r| <= |name|
    ensures r != [] ==> !IsWhitespace(r[0]) && !IsWhitespace(r[|r| - 1])
  {
    if name == [] then name
    else if IsWhitespace(name[0]) then Trim(name[1..])
    else if IsWhitespace(name[|name| - 1]) then Trim(name[..|name| - 1])
    else name
  }

  predicate IsDigit(c: char) {
    '0' <= c <= '9'
  }

  predicate IsAlphanumeric(c: char) {
    IsDigit(c) || 'a' <= c <= 'z' || 'A' <= c <= 'Z'
  }

  /** A command line's first word, and the rest without surrounding space. */
  function SplitCommand(line: string): (string, string) {
    var trimmed := Trim(line);
    var i := Position(trimmed, IsWhitespace);
    (trimmed[..i], Trim(trimmed[i..]))
  }

  predicate Spaces(text: string) {
    forall i :: 0 <= i < |text| ==> IsWhitespace(text[i])
  }

  predicate IsWord(text: string) {
    text != "" && forall i :: 0 <= i < |text| ==> !IsWhitespace(text[i])
  }

  /** No space at either end. */
  predicate Trimmed(text: string) {
    text != "" ==> !IsWhitespace(text[0]) && !IsWhitespace(text[|text| - 1])
  }

  /** Trimming takes exactly the space around a text away. */
  lemma {:induction false} TrimIs(lead: string, text: string, tail: string)
    requires Spaces(lead) && Spaces(tail) && Trimmed(text)
    ensures Trim(lead + text + tail) == text
    decreases |lead| + |tail|
  {
    var whole := lead + text + tail;
    if lead != "" {
      assert whole[1..] == lead[1..] + text + tail;
      TrimIs(lead[1..], text, tail);
    } else if text == "" {
      assert whole == tail;
      if tail != "" {
        assert whole[1..] == "" + text + tail[1..];
        TrimIs("", text, tail[1..]);
      }
    } else if tail != "" {
      assert whole[..|whole| - 1] == lead + text + tail[..|tail| - 1];
      TrimIs(lead, text, tail[..|tail| - 1]);
    } else {
      assert whole == text;
    }
  }

  /** Every text is what trimming leaves of it, with space around. */
  lemma {:induction false} TrimParts(whole: string) returns (lead: string, tail: string)
    ensures whole == lead + Trim(whole) + tail && Spaces(lead) && Spaces(tail) && Trimmed(Trim(whole))
    decreases |whole|
  {
    lead, tail := "", "";
    if whole == "" {
    } else if IsWhitespace(whole[0]) {
      lead, tail := TrimParts(whole[1..]);
      lead := [whole[0]] + lead;
    } else if IsWhitespace(whole[|whole| - 1]) {
      lead, tail := TrimParts(whole[..|whole| - 1]);
      tail := tail + [whole[|whole| - 1]];
      assert whole == whole[..|whole| - 1] + [whole[|whole| - 1]];
    }
  }

  /** A line of a word and arguments is split into them, however they are spaced. */
  lemma SplitIs(lead: string, word: string, gap: string, arguments: string, tail: string)
    requires Spaces(lead) && IsWord(word) && Spaces(gap) && Trimmed(arguments) && Spaces(tail)
    requires arguments != "" ==> gap != ""
    ensures SplitCommand(lead + word + gap + arguments + tail) == (word, arguments)
  {
    hide Trim, IsWhitespace;
    var line := lead + word + gap + arguments + tail;
    if arguments == "" {
      TrimIs(lead, word, gap + tail);
      assert line == lead + word + (gap + tail);
      assert Position(word, IsWhitespace) == |word| && word[..|word|] == word && word[|word|..] == "" + "" + "";
      TrimIs("", "", "");
    } else {
      var kept := word + gap + arguments;
      assert kept[0] == word[0] && kept[|kept| - 1] == arguments[|arguments| - 1];
      TrimIs(lead, kept, tail);
      assert line == lead + kept + tail;
      assert kept[|word|] == gap[0] && forall k :: 0 <= k < |word| ==> kept[k] == word[k];
      assert Position(kept, IsWhitespace) == |word|;
      assert kept[..|word|] == word && kept[|word|..] == gap + arguments + "";
      TrimIs(gap, arguments, "");
    }
  }

  /** The plain forms: a word alone, and a word, a space and arguments. */
  lemma SplitPlain(word: string, arguments: string)
    requires IsWord(word) && Trimmed(arguments)
    ensures SplitCommand(word) == (word, "")
    ensures SplitCommand(word + " " + arguments) == (word, arguments)
  {
    SplitIs("", word, "", "", "");
    assert "" + word + "" + "" + "" == word;
    SplitIs("", word, " ", arguments, "");
    assert "" + word + " " + arguments + "" == word + " " + arguments;
  }

  lemma TrimOfTrimmed(text: string)
    requires Trimmed(text)
    ensures Trim(text) == text
  {
    TrimIs("", text, "");
    assert "" + text + "" == text;
  }

  /** The text before and after the first `=`. */
  function SplitAssignment(text: string): Option<(string, string)> {
    var i := Position(text, c => c == '=');
    if i == |text| then None else Some((text[..i], text[i + 1..]))
  }

  lemma AssignmentIs(name: string, value: string)
    requires '=' !in name
    ensures SplitAssignment(name + "=" + value) == Some((name, value))
    ensures SplitAssignment(name).None?
  {
    var text := name + "=" + value;
    assert text[|name|] == '=' && forall k :: 0 <= k < |name| ==> text[k] == name[k];
    assert text[..|name|] == name && text[|name| + 1..] == value;
  }

  function Decimal(n: nat): (r: string)
    ensures r != [] && forall i :: 0 <= i < |r| ==> IsDigit(r[i])
  {
    if n < 10 then [DigitChar(n)] else Decimal(n / 10) + [DigitChar(n % 10)]
  }

  function DigitChar(d: nat): (c: char)
    requires d < 10
    ensures IsDigit(c) && (c as int) - ('0' as int) == d
  {
    (('0' as int) + d) as char
  }

  const MAX_INDEX := 0xFFFF_FFFF_FFFF_FFFF

  predicate AllDigits(text: string) {
    forall i :: 0 <= i < |text| ==> IsDigit(text[i])
  }

  function Value(digits: string): nat
    requires AllDigits(digits)
  {
    if digits == [] then 0
    else
      var last := digits[|digits| - 1];
      assert IsDigit(last);
      Value(digits[..|digits| - 1]) * 10 + ((last as int) - ('0' as int))
  }

  /** An unsigned machine number: digits, perhaps after a plus sign. */
  function ParseIndex(text: string): Option<nat> {
    var digits := if text != [] && text[0] == '+' then text[1..] else text;
    if digits == [] || !AllDigits(digits) then None
    else if Value(digits) > MAX_INDEX then None
    else Some(Value(digits))
  }

  /** A plus sign does not matter, and what is no number is not read as one. */
  lemma IndexForms(n: nat, text: string, i: nat)
    ensures n <= MAX_INDEX ==> ParseIndex("+" + Decimal(n)) == Some(n)
    ensures n > MAX_INDEX ==> ParseIndex(Decimal(n)).None?
    ensures ParseIndex("").None? && ParseIndex("+").None?
    ensures 0 < i < |text| && !IsDigit(text[i]) ==> ParseIndex(text).None?
  {
    DecimalRoundTrip(n);
    assert ("+" + Decimal(n))[1..] == Decimal(n);
    if 0 < i < |text| && !IsDigit(text[i]) {
      assert !AllDigits(text);
      assert text[0] == '+' ==> text[1..][i - 1] == text[i] && !AllDigits(text[1..]);
    }
  }

  /** Reading a printed number gives it back. */
  lemma {:induction false} DecimalRoundTrip(n: nat)
    ensures Value(Decimal(n)) == n
    ensures n <= MAX_INDEX ==> ParseIndex(Decimal(n)) == Some(n)
  {
    if n >= 10 {
      DecimalRoundTrip(n / 10);
      var all := Decimal(n);
      assert all[..|all| - 1] == Decimal(n / 10);
    }
  }

  function PadLeft(text: string, width: nat): (r: string)
    ensures |r| == Max(|text|, width) && r[|r| - |text|..] == text
    ensures forall i :: 0 <= i < |r| - |text| ==> r[i] == ' '
    decreases width - |text|
  {
    if |text| >= width then text else PadLeft([' '] + text, width)
  }

  predicate IsCommandName(name: string) {
    forall i :: 0 <= i < |name| ==> IsAlphanumeric(name[i]) || name[i] == '-' || name[i] == '_'
  }

  predicate IsVariableName(name: string) {
    && name != [] && !IsDigit(name[0])
    && forall i :: 0 <= i < |name| ==> IsAlphanumeric(name[i]) || name[i] == '_'
  }

  function Unquote(value: string): string {
    if |value| >= 2 && value[0] == value[|value| - 1] && (value[0] == '\'' || value[0] == '"')
    then value[1..|value| - 1] else value
  }

  /** One pair of equal quotes around a value is taken away, and nothing else is. */
  lemma UnquoteIs(value: string, quote: char)
    ensures quote in {'\'', '"'} ==> Unquote([quote] + value + [quote]) == value
    ensures Unquote(value) == value
            || exists q :: q in {'\'', '"'} && value == [q] + Unquote(value) + [q]
  {
    var quoted := [quote] + value + [quote];
    assert quoted[1..|quoted| - 1] == value;
    if Unquote(value) != value {
      assert value == [value[0]] + Unquote(value) + [value[|value| - 1]];
    }
  }
}
