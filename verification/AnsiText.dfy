/** Text with terminal colour escapes: how many columns it takes, and cutting or padding it to a width. */
module AnsiText {
  import opened Text
  import opened DnsSearch

  const ESC := '\U{1B}'
  const ELLIPSIS := '\U{2026}'
  const RESET := [ESC, '[', '0', 'm']

  /** Whether the terminal is inside an escape after a character. */
  function After(inAnsi: bool, c: char): bool { c == ESC || (inAnsi && c != 'm') }

  /** Whether a text, begun inside an escape or not, ends inside one. */
  function EndsInside(text: string, inAnsi: bool): bool
  {
    if text == "" then inAnsi else EndsInside(text[1..], After(inAnsi, text[0]))
  }

  predicate Shown(inAnsi: bool, c: char) { !inAnsi && c != ESC }

  /** The characters that reach the screen. */
  function Visible(text: string, inAnsi: bool): string
  {
    if text == "" then ""
    else (if Shown(inAnsi, text[0]) then [text[0]] else "") + Visible(text[1..], After(inAnsi, text[0]))
  }

  lemma {:induction false} Concat(a: string, b: string, inAnsi: bool)
    ensures Visible(a + b, inAnsi) == Visible(a, inAnsi) + Visible(b, EndsInside(a, inAnsi))
    ensures EndsInside(a + b, inAnsi) == EndsInside(b, EndsInside(a, inAnsi))
  {
    if a == "" {
      assert a + b == b;
    } else {
      assert (a + b)[0] == a[0] && (a + b)[1..] == a[1..] + b;
      Concat(a[1..], b, After(inAnsi, a[0]));
    }
  }

  lemma OneMore(text: string, i: nat)
    requires i < |text|
    ensures text[..i + 1] == text[..i] + [text[i]]
    ensures var inside := EndsInside(text[..i], false);
            && Visible(text[..i + 1], false)
               == Visible(text[..i], false) + (if Shown(inside, text[i]) then [text[i]] else "")
            && EndsInside(text[..i + 1], false) == After(inside, text[i])
  {
    var inside := EndsInside(text[..i], false);
    assert text[..i + 1] == text[..i] + [text[i]];
    Concat(text[..i], [text[i]], false);
    assert [text[i]][1..] == "";
  }

  method GetVisibleLength(text: string) returns (length: nat)
    ensures length == |Visible(text, false)|
  {
    length := 0;
    var inAnsi := false;
    for i := 0 to |text|
      invariant length == |Visible(text[..i], false)| && inAnsi == EndsInside(text[..i], false)
    {
      OneMore(text, i);
      if text[i] == ESC {
        inAnsi := true;
      } else if inAnsi && text[i] == 'm' {
        inAnsi := false;
      } else if !inAnsi {
        length := length + 1;
      }
    }
    assert text[..|text|] == text;
  }

  lemma {:induction false} OnlySpaces(n: nat, inAnsi: bool)
    ensures Visible(Spaces(n), inAnsi) == if inAnsi then "" else Spaces(n)
    ensures EndsInside(Spaces(n), inAnsi) == inAnsi
  {
    if n > 0 {
      assert Spaces(n)[1..] == Spaces(n - 1);
      OnlySpaces(n - 1, inAnsi);
    }
  }

  /** Text without an escape character is shown as it is. */
  lemma {:induction false} PlainText(text: string)
    requires ESC !in text
    ensures Visible(text, false) == text && !EndsInside(text, false)
  {
    if text != "" {
      assert text[0] in text && forall c :: c in text[1..] ==> c in text;
      PlainText(text[1..]);
    }
  }

  lemma {:induction false} InEscape(code: string)
    requires ESC !in code && 'm' !in code
    ensures Visible(code + "m", true) == "" && !EndsInside(code + "m", true)
  {
    if code == "" {
      assert code + "m" == "m" && "m"[1..] == "";
    } else {
      assert code[0] in code && forall c :: c in code[1..] ==> c in code;
      assert (code + "m")[1..] == code[1..] + "m";
      InEscape(code[1..]);
    }
  }

  /** A whole escape, such as the reset, shows nothing. */
  lemma EscapeIsInvisible(code: string)
    requires ESC !in code && 'm' !in code
    ensures Visible([ESC] + (code + "m"), false) == "" && !EndsInside([ESC] + (code + "m"), false)
  {
    assert [ESC][1..] == "";
    assert Visible([ESC], false) == "" && EndsInside([ESC], false);
    Concat([ESC], code + "m", false);
    InEscape(code);
  }

  lemma ResetIsInvisible()
    ensures Visible(RESET, false) == "" && !EndsInside(RESET, false)
  {
    EscapeIsInvisible("[0");
    assert RESET == [ESC] + ("[0" + "m");
  }

  lemma CutIsShown()
    ensures Visible([ELLIPSIS] + RESET, false) == [ELLIPSIS] && !EndsInside([ELLIPSIS] + RESET, false)
  {
    PlainText([ELLIPSIS]);
    Concat([ELLIPSIS], RESET, false);
    ResetIsInvisible();
  }

  predicate PaddingSwallowed(text: string, width: nat) { |Visible(text, false)| < width && EndsInside(text, false) }

  /** What a cell shows. Padding after an unfinished escape is swallowed by it. */
  function Cell(text: string, width: nat): (shown: string)
    ensures |shown| == width <==> !PaddingSwallowed(text, width) && !(width == 0 && Visible(text, false) != "")
  {
    var visible := Visible(text, false);
    if |visible| > width then visible[..if width == 0 then 0 else width - 1] + [ELLIPSIS]
    else if EndsInside(text, false) then visible
    else visible + Spaces(width - |visible|)
  }

  /** A cell shows the text padded with blanks, or its first characters and one ellipsis; it is exactly as
      wide as asked for, unless the text is too short and ends inside an escape, or no width was asked
      for and there is something to show. */
  method PadOrTruncateAnsi(text: string, width: nat) returns (cell: string)
    ensures Visible(cell, false) == Cell(text, width)
    ensures |Visible(cell, false)| == width
        <==> !PaddingSwallowed(text, width) && !(width == 0 && Visible(text, false) != "")
    ensures |Visible(text, false)| <= width ==> text <= cell
    ensures |Visible(text, false)| > width ==> !EndsInside(cell, false)
  {
    if text == "" {
      OnlySpaces(width, false);
      return Spaces(width);
    }
    var visibleLength := GetVisibleLength(text);
    if visibleLength <= width {
      Concat(text, Spaces(width - visibleLength), false);
      OnlySpaces(width - visibleLength, EndsInside(text, false));
      return text + Spaces(width - visibleLength);
    }
    cell := Truncated(text, width);
  }

  lemma {:induction false} VisibleGrows(text: string, i: nat)
    requires i <= |text|
    ensures Visible(text[..i], false) <= Visible(text, false)
  {
    assert text == text[..i] + text[i..];
    Concat(text[..i], text[i..], false);
  }

  /** The loop of the truncating case: escapes are kept, the first visible character over the limit
      becomes the ellipsis. */
  method Truncated(text: string, width: nat) returns (cell: string)
    requires |Visible(text, false)| > width
    ensures Visible(cell, false) == Cell(text, width) && !EndsInside(cell, false)
    ensures exists i :: 0 <= i < |text| && cell == text[..i] + ['\U{2026}'] + ['\U{1B}', '[', '0', 'm']
  {
    cell := "";
    var visibleCount, limit, inAnsi := 0, width - 1, false;
    assert text[..|text|] == text;
    for i := 0 to |text|
      invariant cell == text[..i] && inAnsi == EndsInside(text[..i], false)
      invariant visibleCount == |Visible(text[..i], false)| && (visibleCount == 0 || visibleCount <= limit)
    {
      OneMore(text, i);
      if text[i] == ESC {
        cell := cell + [text[i]];
        inAnsi := true;
      } else if inAnsi {
        cell := cell + [text[i]];
        if text[i] == 'm' { inAnsi := false; }
      } else if visibleCount < limit {
        cell := cell + [text[i]];
        visibleCount := visibleCount + 1;
      } else {
        cell := cell + [ELLIPSIS] + RESET;
        VisibleGrows(text, i);
        Concat(text[..i], [ELLIPSIS] + RESET, false);
        CutIsShown();
        assert cell == text[..i] + ([ELLIPSIS] + RESET);
        return;
      }
    }
    assert false;
  }

  // ---------- the dual-stack column ----------

  function Truncate(value: string, maxLength: nat): (r: string)
    requires maxLength > 0
    ensures |r| <= maxLength && (|value| <= maxLength ==> r == value)
  {
    if |value| <= maxLength then value else value[..maxLength - 1] + [ELLIPSIS]
  }

  function Coloured(code: string, text: string): string { [ESC] + (code + "m") + text + RESET }

  function FormatDualStack(remoteAddress: string, answer: Option<DnsResult>): string
  {
    if answer.None? then Coloured("[90", "resolving...")
    else
      var v6 := IsIpv6(remoteAddress);
      if answer.value.hasBothFamilies then
        var other := if v6 then answer.value.ipv4 else answer.value.ipv6;
        Coloured("[32", ['\U{2713}']) + " " + Coloured("[36", if v6 then "+v4:" else "+v6:") + " "
        + Truncate(if other.Some? then other.value else "?", 38)
      else Coloured("[33", if v6 then "v6 only" else "v4 only")
  }

  lemma ColouredText(code: string, text: string)
    requires ESC !in code && 'm' !in code && ESC !in text
    ensures Visible(Coloured(code, text), false) == text && !EndsInside(Coloured(code, text), false)
  {
    var start := [ESC] + (code + "m");
    EscapeIsInvisible(code);
    Concat(start, text, false);
    PlainText(text);
    Concat(start + text, RESET, false);
    ResetIsInvisible();
  }

  /** Up to 38 characters are shown as they are; of more, the first 37 and an ellipsis. */
  predicate ShownAs(value: string, shown: string)
  {
    if |value| <= 38 then shown == value else |shown| == 38 && shown[..37] == value[..37] && shown[37] == '\U{2026}'
  }

  /** What the reader sees of the column: for a dual-stack host the address of the family that the connection,
      having a colon in its address or not, does not use; otherwise the family it does use. */
  ghost predicate TellsFamilies(remoteAddress: string, answer: Option<DnsResult>, shown: string)
  {
    match answer
    case None => shown == "resolving..."
    case Some(r) =>
      if !r.hasBothFamilies then shown == if ':' in remoteAddress then "v6 only" else "v4 only"
      else
        var other := if ':' in remoteAddress then r.ipv4 else r.ipv6;
        && |shown| >= 7 && shown[..7] == ['\U{2713}'] + (if ':' in remoteAddress then " +v4: " else " +v6: ")
        && ShownAs(if other.Some? then other.value else "?", shown[7..])
  }

  lemma OneFamilyTold(remoteAddress: string, answer: Option<DnsResult>)
    requires answer.None? || !answer.value.hasBothFamilies
    ensures var text := FormatDualStack(remoteAddress, answer);
            && TellsFamilies(remoteAddress, answer, Visible(text, false))
            && |Visible(text, false)| <= 48 && !EndsInside(text, false)
  {
    ColouredText("[90", "resolving...");
    ColouredText("[33", "v6 only");
    ColouredText("[33", "v4 only");
  }

  lemma BothFamiliesTold(remoteAddress: string, r: DnsResult)
    requires r.hasBothFamilies
    requires r.ipv4.Some? ==> ESC !in r.ipv4.value
    requires r.ipv6.Some? ==> ESC !in r.ipv6.value
    ensures var text := FormatDualStack(remoteAddress, Some(r));
            && TellsFamilies(remoteAddress, Some(r), Visible(text, false))
            && |Visible(text, false)| <= 48 && !EndsInside(text, false)
  {
    if IsIpv6(remoteAddress) {
      BothFit("+v4:", r.ipv4);
      assert " " + "+v4:" + " " == " +v4: ";
    } else {
      BothFit("+v6:", r.ipv6);
      assert " " + "+v6:" + " " == " +v6: ";
    }
  }

  /** The dual-stack column tells the families, and is 48 wide and never cut, for every answer, provided DNS gives
      no escape characters. */
  lemma DualStackFits(remoteAddress: string, answer: Option<DnsResult>)
    requires answer.Some? && answer.value.ipv4.Some? ==> ESC !in answer.value.ipv4.value
    requires answer.Some? && answer.value.ipv6.Some? ==> ESC !in answer.value.ipv6.value
    ensures var text := FormatDualStack(remoteAddress, answer);
            |Cell(text, 48)| == 48 && |Visible(text, false)| <= 48 && !EndsInside(text, false)
            && TellsFamilies(remoteAddress, answer, Visible(text, false))
  {
    if answer.Some? && answer.value.hasBothFamilies {
      BothFamiliesTold(remoteAddress, answer.value);
    } else {
      OneFamilyTold(remoteAddress, answer);
    }
  }

  lemma BothFit(family: string, other: Option<string>)
    requires ESC !in family && |family| == 4 && (other.Some? ==> ESC !in other.value)
    ensures var shown := Truncate(if other.Some? then other.value else "?", 38);
            var text := Coloured("[32", ['\U{2713}']) + " " + Coloured("[36", family) + " " + shown;
            && |Visible(text, false)| <= 48 && !EndsInside(text, false)
            && var seen := Visible(text, false);
               |seen| >= 7 && seen[..7] == ['\U{2713}'] + " " + family + " "
               && ShownAs(if other.Some? then other.value else "?", seen[7..])
  {
    var shown := Truncate(if other.Some? then other.value else "?", 38);
    var a, b := Coloured("[32", ['\U{2713}']), Coloured("[36", family);
    ColouredText("[32", ['\U{2713}']);
    ColouredText("[36", family);
    PlainText(" ");
    PlainText(shown);
    Concat(a, " ", false);
    Concat(a + " ", b, false);
    Concat(a + " " + b, " ", false);
    Concat(a + " " + b + " ", shown, false);
    var front := ['\U{2713}'] + " " + family + " ";
    assert |front| == 7 && (front + shown)[..7] == front && (front + shown)[7..] == shown;
  }
}
