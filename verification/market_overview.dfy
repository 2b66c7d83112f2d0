/** The market-status badge of the market overview
    (src/components/MarketOverview.tsx): its colour classes and its label. */
module MarketOverview {
  import opened Text

  /** The four statuses the market data declares. */
  const KnownStatuses: set<string> := {"open", "closed", "pre-market", "after-hours"}

  const Green := "text-green-600 bg-green-100"
  const Red := "text-red-600 bg-red-100"
  const Yellow := "text-yellow-600 bg-yellow-100"
  const Blue := "text-blue-600 bg-blue-100"
  const Gray := "text-gray-600 bg-gray-100"

  /** `getStatusColor(status)` */
  function StatusColor(status: string): (c: string)
    ensures c == Gray <==> status !in KnownStatuses
    ensures c in {Green, Red, Yellow, Blue, Gray}
  {
    match status
    case "open" => Green
    case "closed" => Red
    case "pre-market" => Yellow
    case "after-hours" => Blue
    case _ => Gray
  }

  /** Distinct known statuses get distinct colours. */
  lemma StatusColorsDistinct(a: string, b: string)
    requires a in KnownStatuses && b in KnownStatuses && a != b
    ensures StatusColor(a) != StatusColor(b)
  {
  }

  /** `s.replace(from, to)` with a one-character string pattern: only the first occurrence is replaced. */
  function ReplaceFirst(s: string, from: char, to: char): (r: string)
    ensures |r| == |s|
  {
    if s == [] then []
    else if s[0] == from then [to] + s[1..]
    else [s[0]] + ReplaceFirst(s[1..], from, to)
  }

  /** With no occurrence nothing changes. */
  lemma {:induction false} ReplaceFirstAbsent(s: string, from: char, to: char)
    requires from !in s
    ensures ReplaceFirst(s, from, to) == s
  {
    if s != [] {
      assert from !in s[1..];
      ReplaceFirstAbsent(s[1..], from, to);
      assert [s[0]] + s[1..] == s;
    }
  }

  /** The first occurrence, at `i`, is replaced and everything else is kept,
      including any later occurrence. */
  lemma {:induction false} ReplaceFirstAt(s: string, from: char, to: char, i: nat)
    requires i < |s| && s[i] == from && from !in s[..i]
    ensures ReplaceFirst(s, from, to) == s[..i] + [to] + s[i + 1..]
  {
    if i == 0 {
      assert s[..0] == [];
    } else {
      assert s[0] != from by { assert s[..i][0] == s[0]; }
      assert s[1..][..i - 1] == s[..i][1..];
      ReplaceFirstAt(s[1..], from, to, i - 1);
      assert s[1..][i..] == s[i + 1..];
      assert [s[0]] + s[1..][..i - 1] == s[..i];
    }
  }

  /** A `\b\w` match at index `i`: a word character at the start or after a non-word character. */
  predicate StartsWord(s: string, i: nat)
    requires i < |s|
  {
    IsWordChar(s[i]) && (i == 0 || !IsWordChar(s[i - 1]))
  }

  /** `s.replace(/\b\w/g, l => l.toUpperCase())`, scanning left to right;
      `afterWord` says whether the character before `s` was a word character. */
  function CapitalizeWords(s: string, afterWord: bool): (r: string)
    ensures |r| == |s|
  {
    if s == [] then []
    else
      var c := if !afterWord && IsWordChar(s[0]) then UpperChar(s[0]) else s[0];
      [c] + CapitalizeWords(s[1..], IsWordChar(s[0]))
  }

  lemma {:induction false} CapitalizeWordsAt(s: string, afterWord: bool, i: nat)
    requires i < |s|
    ensures var starts := IsWordChar(s[i]) && (if i == 0 then !afterWord else !IsWordChar(s[i - 1]));
            CapitalizeWords(s, afterWord)[i] == if starts then UpperChar(s[i]) else s[i]
  {
    if i > 0 {
      CapitalizeWordsAt(s[1..], IsWordChar(s[0]), i - 1);
    }
  }

  /** `formatStatus(status)`: the first '-' becomes a space, then every word is capitalised. */
  function FormatStatus(status: string): (shown: string)
    ensures |shown| == |status|
  {
    CapitalizeWords(ReplaceFirst(status, '-', ' '), false)
  }

  /** Each character of the label is that of the status with its first '-'
      replaced, upper-cased exactly where a word starts. */
  lemma FormatStatusAt(status: string, i: nat)
    requires i < |status|
    ensures var t := ReplaceFirst(status, '-', ' ');
            FormatStatus(status)[i] == if StartsWord(t, i) then UpperChar(t[i]) else t[i]
  {
    CapitalizeWordsAt(ReplaceFirst(status, '-', ' '), false, i);
  }

  /** Capitalising works piece by piece: the second piece continues from the
      last character of the first. */
  lemma {:induction false} CapitalizeAppend(a: string, b: string, afterWord: bool)
    requires a != []
    ensures CapitalizeWords(a + b, afterWord) == CapitalizeWords(a, afterWord) + CapitalizeWords(b, IsWordChar(a[|a| - 1]))
  {
    assert (a + b)[0] == a[0] && (a + b)[1..] == a[1..] + b;
    if |a| > 1 {
      CapitalizeAppend(a[1..], b, IsWordChar(a[0]));
    }
  }

  /** A lower-case word is capitalised exactly at its first letter. */
  lemma {:induction false} CapitalizeWord(w: string, afterWord: bool)
    requires forall i :: 0 <= i < |w| ==> 'a' <= w[i] <= 'z'
    ensures w != [] && !afterWord ==> CapitalizeWords(w, afterWord) == [UpperChar(w[0])] + w[1..]
    ensures afterWord ==> CapitalizeWords(w, afterWord) == w
  {
    if w != [] {
      CapitalizeWord(w[1..], true);
      assert [w[0]] + w[1..] == w;
    }
  }

  /** The labels of the four declared statuses. */
  lemma KnownLabels()
    ensures FormatStatus("open") == "Open"
    ensures FormatStatus("closed") == "Closed"
    ensures FormatStatus("pre-market") == "Pre Market"
    ensures FormatStatus("after-hours") == "After Hours"
  {
    OneWordLabels();
    DashedLabels();
  }

  lemma OneWordLabels()
    ensures FormatStatus("open") == "Open"
    ensures FormatStatus("closed") == "Closed"
  {
    TwoWordLabel("", "open", "");
    assert [UpperChar('o')] + "pen" == "Open";
    TwoWordLabel("", "closed", "");
    assert [UpperChar('c')] + "losed" == "Closed";
  }

  lemma DashedLabels()
    ensures FormatStatus("pre-market") == "Pre Market"
    ensures FormatStatus("after-hours") == "After Hours"
  {
    TwoWordLabel("pre", "market", "-");
    assert "pre" + "-" + "market" == "pre-market";
    assert [UpperChar('p')] + "re" + " " + [UpperChar('m')] + "arket" == "Pre Market";
    TwoWordLabel("after", "hours", "-");
    assert "after" + "-" + "hours" == "after-hours";
    assert [UpperChar('a')] + "fter" + " " + [UpperChar('h')] + "ours" == "After Hours";
  }

  /** A status of one lower-case word, or of two joined by '-', is labelled
      with each word capitalised and the '-' turned into a space. */
  lemma TwoWordLabel(first: string, second: string, dash: string)
    requires forall i :: 0 <= i < |first| ==> 'a' <= first[i] <= 'z'
    requires second != [] && forall i :: 0 <= i < |second| ==> 'a' <= second[i] <= 'z'
    requires (first == [] && dash == []) || (first != [] && dash == "-")
    ensures first == [] ==> FormatStatus(second) == [UpperChar(second[0])] + second[1..]
    ensures first != [] ==>
              FormatStatus(first + dash + second)
              == [UpperChar(first[0])] + first[1..] + " " + [UpperChar(second[0])] + second[1..]
  {
    CapitalizeWord(second, false);
    if first == [] {
      ReplaceFirstAbsent(second, '-', ' ');
    } else {
      var status := first + dash + second;
      assert status[|first|] == '-' && '-' !in status[..|first|] by {
        assert status[..|first|] == first;
      }
      ReplaceFirstAt(status, '-', ' ', |first|);
      assert status[..|first|] == first && status[|first| + 1..] == second;
      var t := first + (" " + second);
      assert ReplaceFirst(status, '-', ' ') == t;
      CapitalizeAppend(first, " " + second, false);
      CapitalizeAppend(" ", second, false);
      CapitalizeWord(first, false);
      assert CapitalizeWords(" ", false) == " ";
    }
  }
}
