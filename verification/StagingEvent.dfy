/** backend/app/step_runtime.py: the one closed log line that says why a staging was kept, its printer and its parser.
    The line carries a JSON object of strings and whole numbers; the printer writes those, the parser reads any JSON. */
module StagingEvent {
  import opened Options
  import StagingOwnership

  // ----- codes -----

  /** A reason's text, its code, and whether the text is the whole reason or its beginning. */
  datatype Row = Row(text: string, code: string, exact: bool)

  const OUTER_CODES: seq<Row> := [
    Row("bootstrap's boot unknown", "bootstrap_boot_unknown", true),
    Row("bootstrap record unreadable", "bootstrap_record_unreadable", true),
    Row("group scan unreadable", "group_scan_unreadable", true),
    Row("launch unreadable", "launch_unreadable", true),
    Row("an unreleased bootstrap not proven ended", "bootstrap_unreleased_unproven", true),
    Row("owner ", "owner_may_live", false),
    Row("bootstrap ", "bootstrap_may_live", false),
    Row("group member pid=", "group_member_alive", false),
    Row("survivor ", "survivor_may_live", false)]

  const INNER_CODES: seq<Row> := [
    Row("a possible holder unreadable", "holder_unreadable", true),
    Row("a holder's user unreadable", "holder_user_unreadable", true),
    Row("run owner names no user", "owner_names_no_user", true),
    Row("holder still running after its kill ", "holder_survived_kill", false),
    Row("holder access denied ", "holder_kill_denied", false),
    Row("holders still found after ", "holders_remain", false)]

  const UNKNOWN := "unknown_reason"
  const OPS: set<string> := {"reclaim", "prune"}

  predicate Matches(why: string, row: Row) { if row.exact then why == row.text else row.text <= why }

  function CodeIn(why: string, codes: seq<Row>): string {
    if codes == [] then UNKNOWN
    else if Matches(why, codes[0]) then codes[0].code
    else CodeIn(why, codes[1..])
  }

  method StagingReasonCode(why: string, codes: seq<Row>) returns (code: string)
    ensures code == CodeIn(why, codes)
  {
    var i := 0;
    while i < |codes|
      invariant 0 <= i <= |codes|
      invariant CodeIn(why, codes) == CodeIn(why, codes[i..])
    {
      if Matches(why, codes[i]) { return codes[i].code; }
      i := i + 1;
    }
    return UNKNOWN;
  }

  // ----- the reasons -----

  function Digit(d: nat): char
    requires d < 10
  {
    (48 + d) as char
  }

  function PrintNat(n: nat): (s: string)
    ensures s != []
  {
    if n < 10 then [Digit(n)] else PrintNat(n / 10) + [Digit(n % 10)]
  }

  /** The text _writer_may_live answers. */
  function Text(r: StagingOwnership.Reason): string {
    match r
    case OwnerMayLive(why) => "owner " + why
    case BootstrapMayLive(why) => "bootstrap " + why
    case BootUnknown => "bootstrap's boot unknown"
    case RecordUnreadable => "bootstrap record unreadable"
    case ScanUnreadable => "group scan unreadable"
    case MemberAlive(pid) => "group member pid=" + PrintNat(pid)
    case LaunchUnreadable => "launch unreadable"
    case UnreleasedUnproven => "an unreleased bootstrap not proven ended"
    case SurvivorMayLive(why) => "survivor " + why
  }

  function CodeOf(r: StagingOwnership.Reason): string {
    match r
    case OwnerMayLive(_) => "owner_may_live"
    case BootstrapMayLive(_) => "bootstrap_may_live"
    case BootUnknown => "bootstrap_boot_unknown"
    case RecordUnreadable => "bootstrap_record_unreadable"
    case ScanUnreadable => "group_scan_unreadable"
    case MemberAlive(_) => "group_member_alive"
    case LaunchUnreadable => "launch_unreadable"
    case UnreleasedUnproven => "bootstrap_unreleased_unproven"
    case SurvivorMayLive(_) => "survivor_may_live"
  }

  lemma {:induction false} FirstMatch(why: string, codes: seq<Row>, i: nat)
    requires i < |codes| && Matches(why, codes[i]) && forall k | 0 <= k < i :: !Matches(why, codes[k])
    ensures CodeIn(why, codes) == codes[i].code
  {
    if i > 0 {
      forall k | 0 <= k < i - 1 ensures !Matches(why, codes[1..][k]) { assert codes[1..][k] == codes[k + 1]; }
      FirstMatch(why, codes[1..], i - 1);
    }
  }

  /** Texts whose letter at i differs match neither whole nor as a beginning. */
  lemma Differs(why: string, row: Row, i: nat)
    requires i < |row.text| && (i < |why| ==> why[i] != row.text[i])
    ensures !Matches(why, row)
  {
  }

  function RowOf(r: StagingOwnership.Reason): (i: nat)
    ensures i < |OUTER_CODES|
  {
    match r
    case OwnerMayLive(_) => 5
    case BootstrapMayLive(why) => if why == "record unreadable" then 1 else 6
    case BootUnknown => 0
    case RecordUnreadable => 1
    case ScanUnreadable => 2
    case MemberAlive(_) => 7
    case LaunchUnreadable => 3
    case UnreleasedUnproven => 4
    case SurvivorMayLive(_) => 8
  }

  lemma NoEarlierBootstrapRow(why: string, k: nat)
    requires k < RowOf(StagingOwnership.BootstrapMayLive(why))
    ensures !Matches("bootstrap " + why, OUTER_CODES[k])
  {
    var t := "bootstrap " + why;
    assert t[0] == 'b' && t[9] == ' ';
    if k == 0 {
      Differs(t, OUTER_CODES[0], 9);
    } else if k == 1 {
      assert t[10..] == why && OUTER_CODES[1].text[10..] == "record unreadable";
    } else {
      Differs(t, OUTER_CODES[k], 0);
    }
  }

  /** The rows' first letters. */
  const INITIALS := ['b', 'b', 'g', 'l', 'a', 'o', 'b', 'g', 's']

  lemma RowStarts(k: nat)
    requires k < |OUTER_CODES|
    ensures OUTER_CODES[k].text != "" && OUTER_CODES[k].text[0] == INITIALS[k]
  {
    match k
    case 0 => assert OUTER_CODES[0].text == "bootstrap's boot unknown";
    case 1 => assert OUTER_CODES[1].text == "bootstrap record unreadable";
    case 2 => assert OUTER_CODES[2].text == "group scan unreadable";
    case 3 => assert OUTER_CODES[3].text == "launch unreadable";
    case 4 => assert OUTER_CODES[4].text == "an unreleased bootstrap not proven ended";
    case 5 => assert OUTER_CODES[5].text == "owner ";
    case 6 => assert OUTER_CODES[6].text == "bootstrap ";
    case 7 => assert OUTER_CODES[7].text == "group member pid=";
    case _ => assert OUTER_CODES[8].text == "survivor ";
  }

  lemma TextStarts(r: StagingOwnership.Reason)
    ensures Text(r) != "" && Text(r)[0] == INITIALS[RowOf(r)]
  {
  }

  lemma NoEarlierRow(r: StagingOwnership.Reason, k: nat)
    requires k < RowOf(r)
    ensures !Matches(Text(r), OUTER_CODES[k])
  {
    RowStarts(k);
    TextStarts(r);
    match r
    case BootstrapMayLive(why) => NoEarlierBootstrapRow(why, k);
    case RecordUnreadable => Differs(Text(r), OUTER_CODES[0], 9);
    case MemberAlive(pid) =>
      if k == 2 { NotScan(pid); } else { Differs(Text(r), OUTER_CODES[k], 0); }
    case BootUnknown =>
    case _ => Differs(Text(r), OUTER_CODES[k], 0);
  }

  lemma NotScan(pid: nat)
    ensures !Matches("group member pid=" + PrintNat(pid), OUTER_CODES[2])
  {
    var t := "group member pid=" + PrintNat(pid);
    assert t[6] == 'm' && OUTER_CODES[2].text[6] == 's';
    Differs(t, OUTER_CODES[2], 6);
  }

  /** Every reason has a code of its own, but for one: a bootstrap whose own record could not be read is told as a group
      that could not be named. No reason is unknown. */
  lemma EveryReasonHasItsCode(r: StagingOwnership.Reason)
    ensures CodeIn(Text(r), OUTER_CODES) == CodeOf(r) <==> r != StagingOwnership.BootstrapMayLive("record unreadable")
    ensures CodeIn(Text(r), OUTER_CODES) != UNKNOWN
    ensures r == StagingOwnership.BootstrapMayLive("record unreadable") ==>
              CodeIn(Text(r), OUTER_CODES) == CodeOf(StagingOwnership.RecordUnreadable)
  {
    var i := RowOf(r);
    forall k | 0 <= k < i ensures !Matches(Text(r), OUTER_CODES[k]) { NoEarlierRow(r, k); }
    RowMatches(r);
    FirstMatch(Text(r), OUTER_CODES, i);
  }

  lemma RowMatches(r: StagingOwnership.Reason)
    ensures Matches(Text(r), OUTER_CODES[RowOf(r)])
  {
    hide PrintNat;
    match r
    case OwnerMayLive(why) => assert OUTER_CODES[5].text <= "owner " + why;
    case BootstrapMayLive(why) => BootstrapRowMatches(why);
    case MemberAlive(pid) => assert OUTER_CODES[7].text <= "group member pid=" + PrintNat(pid);
    case SurvivorMayLive(why) => assert OUTER_CODES[8].text <= "survivor " + why;
    case _ => ExactRowMatches(r);
  }

  lemma BootstrapRowMatches(why: string)
    ensures Matches("bootstrap " + why, OUTER_CODES[if why == "record unreadable" then 1 else 6])
  {
    if why == "record unreadable" {
      assert "bootstrap " + "record unreadable" == OUTER_CODES[1].text;
    } else {
      assert OUTER_CODES[6].text <= "bootstrap " + why;
    }
  }

  lemma ExactRowMatches(r: StagingOwnership.Reason)
    requires r.BootUnknown? || r.RecordUnreadable? || r.ScanUnreadable? || r.LaunchUnreadable? || r.UnreleasedUnproven?
    ensures Matches(Text(r), OUTER_CODES[RowOf(r)])
  {
  }

  // ----- JSON -----

  /** Other: any number that is no whole one, a constant, an array, an object; what is in it is not kept. */
  datatype Value = Str(s: string) | Whole(n: int) | Other

  datatype Member = Member(key: string, value: Value)

  predicate Space(c: char) { c == ' ' || c == '\t' || c == '\n' || c == '\r' }

  predicate IsDigit(c: char) { '0' <= c <= '9' }

  /** A character that stands for itself between quotes. */
  predicate Plain(c: char) { c != '"' && c != '\\' && ' ' <= c }

  function SkipSpace(s: string): (r: string)
    ensures |r| <= |s|
  {
    if s != [] && Space(s[0]) then SkipSpace(s[1..]) else s
  }

  function HexDigit(c: char): (d: int)
    ensures -1 <= d < 16
  {
    if '0' <= c <= '9' then c as int - 48
    else if 'a' <= c <= 'f' then c as int - 87
    else if 'A' <= c <= 'F' then c as int - 55
    else -1
  }

  /** The character of a \\u escape. Half of a surrogate pair is read as U+FFFD: like it, a pair is in no key and in no
      code, so a line with either is accepted or not all the same. */
  function OfUnit(n: nat): char
    requires n < 0x1_0000
  {
    if 0xD800 <= n < 0xE000 then 0xFFFD as char else n as char
  }

  /** What a backslash stands for with what follows it, and what follows that. */
  function ParseEscape(s: string): (r: Option<(char, string)>)
    ensures r.Some? ==> |r.value.1| < |s|
  {
    if s == [] then None
    else
      match s[0]
      case '"' => Some(('"', s[1..]))
      case '\\' => Some(('\\', s[1..]))
      case '/' => Some(('/', s[1..]))
      case 'b' => Some((8 as char, s[1..]))
      case 'f' => Some((12 as char, s[1..]))
      case 'n' => Some(('\n', s[1..]))
      case 'r' => Some(('\r', s[1..]))
      case 't' => Some(('\t', s[1..]))
      case 'u' =>
        if |s| < 5 then None
        else
          var a, b, c, d := HexDigit(s[1]), HexDigit(s[2]), HexDigit(s[3]), HexDigit(s[4]);
          if a < 0 || b < 0 || c < 0 || d < 0 then None
          else Some((OfUnit(((a * 16 + b) * 16 + c) * 16 + d), s[5..]))
      case _ => None
  }

  /** The text up to the closing quote, and what follows it. */
  function ParseText(s: string): (r: Option<(string, string)>)
    ensures r.Some? ==> |r.value.1| < |s|
  {
    if s == [] then None
    else if s[0] == '"' then Some(([], s[1..]))
    else if s[0] == '\\' then
      match ParseEscape(s[1..])
      case None => None
      case Some((c, after)) =>
        match ParseText(after)
        case None => None
        case Some((text, rest)) => Some(([c] + text, rest))
    else if !Plain(s[0]) then None
    else
      match ParseText(s[1..])
      case None => None
      case Some((text, rest)) => Some(([s[0]] + text, rest))
  }

  /** The digits s begins with, and what follows them. */
  function TakeDigits(s: string): (r: (string, string))
    ensures |r.0| + |r.1| == |s| && forall c | c in r.0 :: IsDigit(c)
  {
    if s != [] && IsDigit(s[0]) then
      var r := TakeDigits(s[1..]);
      ([s[0]] + r.0, r.1)
    else ([], s)
  }

  function NatOf(digits: string): nat
    requires forall c | c in digits :: IsDigit(c)
  {
    if digits == [] then 0 else
      assert IsDigit(digits[|digits| - 1]);
      10 * NatOf(digits[..|digits| - 1]) + (digits[|digits| - 1] as int - 48)
  }

  function ParseNat(s: string): (r: Option<(nat, string)>)
    ensures r.Some? ==> |r.value.1| < |s|
  {
    var (digits, rest) := TakeDigits(s);
    if digits == [] || (|digits| > 1 && digits[0] == '0') then None else Some((NatOf(digits), rest))
  }

  function ParseWhole(s: string): (r: Option<(int, string)>)
    ensures r.Some? ==> |r.value.1| < |s|
  {
    if s != [] && s[0] == '-' then
      match ParseNat(s[1..])
      case None => None
      case Some((n, rest)) => Some((0 - n, rest))
    else ParseNat(s)
  }

  function SkipFraction(s: string): (r: string)
    ensures |r| <= |s|
  {
    if |s| > 1 && s[0] == '.' && IsDigit(s[1]) then TakeDigits(s[1..]).1 else s
  }

  function SkipExponent(s: string): (r: string)
    ensures |r| <= |s|
  {
    if s == [] || (s[0] != 'e' && s[0] != 'E') then s
    else
      var digits := if |s| > 1 && (s[1] == '+' || s[1] == '-') then s[2..] else s[1..];
      if digits != [] && IsDigit(digits[0]) then TakeDigits(digits).1 else s
  }

  function ParseNumber(s: string): (r: Option<(Value, string)>)
    ensures r.Some? ==> |r.value.1| < |s|
  {
    match ParseWhole(s)
    case None => None
    case Some((n, rest)) =>
      var after := SkipExponent(SkipFraction(rest));
      Some((if after == rest then Whole(n) else Other, after))
  }

  /** What follows one of the constants Python's parser knows. */
  function ParseConstant(s: string): (r: Option<string>)
    ensures r.Some? ==> |r.value| < |s|
  {
    if "null" <= s || "true" <= s then Some(s[4..])
    else if "false" <= s then Some(s[5..])
    else if "NaN" <= s then Some(s[3..])
    else if "Infinity" <= s then Some(s[8..])
    else if "-Infinity" <= s then Some(s[9..])
    else None
  }

  function ParseValue(s: string): (r: Option<(Value, string)>)
    ensures r.Some? ==> |r.value.1| < |s|
    decreases |s|, 0
  {
    if s == [] then None
    else if s[0] == '"' then
      match ParseText(s[1..])
      case None => None
      case Some((text, rest)) => Some((Str(text), rest))
    else if s[0] == '{' then
      match ParseBraces(s[1..])
      case None => None
      case Some((_, rest)) => Some((Other, rest))
    else if s[0] == '[' then
      match ParseBrackets(s[1..])
      case None => None
      case Some(rest) => Some((Other, rest))
    else
      match ParseConstant(s)
      case None => ParseNumber(s)
      case Some(rest) => Some((Other, rest))
  }

  /** What follows an array, after its opening bracket. */
  function ParseBrackets(s: string): (r: Option<string>)
    ensures r.Some? ==> |r.value| < |s|
    decreases |s|, 2
  {
    var first := SkipSpace(s);
    if first != [] && first[0] == ']' then Some(first[1..]) else ParseElements(first)
  }

  function ParseElements(s: string): (r: Option<string>)
    ensures r.Some? ==> |r.value| < |s|
    decreases |s|, 1
  {
    match ParseValue(SkipSpace(s))
    case None => None
    case Some((_, rest)) =>
      var next := SkipSpace(rest);
      if next == [] then None
      else if next[0] == ']' then Some(next[1..])
      else if next[0] != ',' then None
      else ParseElements(next[1..])
  }

  function ParseMember(s: string): (r: Option<(Member, string)>)
    ensures r.Some? ==> |r.value.1| < |s|
    decreases |s|, 0
  {
    if s == [] || s[0] != '"' then None
    else
      match ParseText(s[1..])
      case None => None
      case Some((key, rest)) =>
        var colon := SkipSpace(rest);
        if colon == [] || colon[0] != ':' then None
        else
          match ParseValue(SkipSpace(colon[1..]))
          case None => None
          case Some((value, after)) => Some((Member(key, value), after))
  }

  /** At least one member, up to the closing brace, and what follows it. */
  function ParseMembers(s: string): (r: Option<(seq<Member>, string)>)
    ensures r.Some? ==> |r.value.1| < |s|
    decreases |s|, 1
  {
    match ParseMember(SkipSpace(s))
    case None => None
    case Some((m, rest)) =>
      var next := SkipSpace(rest);
      if next == [] then None
      else if next[0] == '}' then Some(([m], next[1..]))
      else if next[0] != ',' then None
      else
        match ParseMembers(next[1..])
        case None => None
        case Some((more, after)) => Some(([m] + more, after))
  }

  /** An object's members, after its opening brace, and what follows it. */
  function ParseBraces(s: string): (r: Option<(seq<Member>, string)>)
    ensures r.Some? ==> |r.value.1| < |s|
    decreases |s|, 2
  {
    var first := SkipSpace(s);
    if first != [] && first[0] == '}' then Some(([], first[1..])) else ParseMembers(first)
  }

  /** The whole text is one object; any other JSON is none. */
  function ParseObject(s: string): Option<seq<Member>> {
    var open := SkipSpace(s);
    if open == [] || open[0] != '{' then None
    else
      match ParseBraces(open[1..])
      case None => None
      case Some((members, rest)) => if SkipSpace(rest) == [] then Some(members) else None
  }

  function PrintValue(v: Value): string
    requires !v.Other?
  {
    match v
    case Str(s) => "\"" + s + "\""
    case Whole(n) => if n < 0 then "-" + PrintNat(-n) else PrintNat(n)
  }

  predicate Said(members: seq<Member>) { forall m | m in members :: !m.value.Other? }

  function PrintMember(m: Member): string
    requires !m.value.Other?
  {
    "\"" + m.key + "\":" + PrintValue(m.value)
  }

  /** json.dumps with the separators ',' and ':', after the opening brace. */
  function PrintMembers(members: seq<Member>): string
    requires members != [] && Said(members)
  {
    PrintMember(members[0]) + if |members| == 1 then "}" else "," + PrintMembers(members[1..])
  }

  function PrintObject(members: seq<Member>): string
    requires members != [] && Said(members)
  {
    "{" + PrintMembers(members)
  }

  ghost predicate PlainText(s: string) { forall c | c in s :: Plain(c) }

  ghost predicate Printable(m: Member) {
    PlainText(m.key) && (m.value.Str? ==> PlainText(m.value.s))
  }

  /** A value's text ends here. */
  predicate Ends(tail: string) { tail != [] ==> tail[0] == ',' || tail[0] == '}' }

  lemma {:induction false} TextReads(text: string, tail: string)
    requires forall c | c in text :: Plain(c)
    ensures ParseText(text + "\"" + tail) == Some((text, tail))
  {
    var s := text + "\"" + tail;
    if text == [] {
      assert s[0] == '"' && s[1..] == tail;
    } else {
      assert s[0] == text[0] && Plain(text[0]);
      assert s[1..] == text[1..] + "\"" + tail;
      TextReads(text[1..], tail);
      assert [text[0]] + text[1..] == text;
    }
  }

  lemma {:induction false} DigitsRead(digits: string, tail: string)
    requires (forall c | c in digits :: IsDigit(c)) && (tail != [] ==> !IsDigit(tail[0]))
    ensures TakeDigits(digits + tail) == (digits, tail)
  {
    var s := digits + tail;
    if digits == [] {
      assert s == tail;
    } else {
      assert s[0] == digits[0] && s[1..] == digits[1..] + tail;
      DigitsRead(digits[1..], tail);
      assert [digits[0]] + digits[1..] == digits;
    }
  }

  lemma {:induction false} NatPrints(n: nat)
    ensures forall c | c in PrintNat(n) :: IsDigit(c)
    ensures NatOf(PrintNat(n)) == n
    ensures |PrintNat(n)| > 1 ==> PrintNat(n)[0] != '0'
  {
    var s := PrintNat(n);
    if n < 10 {
      assert s == [Digit(n)] && s[..0] == [];
    } else {
      NatPrints(n / 10);
      var front := PrintNat(n / 10);
      assert s == front + [Digit(n % 10)] && s[..|s| - 1] == front;
      if |front| == 1 { assert n / 10 < 10 && front[0] == Digit(n / 10); }
      assert s[0] == front[0];
    }
  }

  lemma NatReads(n: nat, tail: string)
    requires tail != [] ==> !IsDigit(tail[0])
    ensures ParseNat(PrintNat(n) + tail) == Some((n, tail))
    ensures IsDigit((PrintNat(n) + tail)[0])
  {
    hide PrintNat, NatOf, TakeDigits;
    NatPrints(n);
    DigitsRead(PrintNat(n), tail);
    assert (PrintNat(n) + tail)[0] == PrintNat(n)[0];
  }

  lemma WholeReads(n: int, tail: string)
    requires tail != [] ==> !IsDigit(tail[0])
    ensures ParseWhole(PrintValue(Whole(n)) + tail) == Some((n, tail))
    ensures var c := (PrintValue(Whole(n)) + tail)[0]; c == '-' || IsDigit(c)
  {
    hide PrintNat, ParseNat;
    var m := if n < 0 then -n else n;
    NatReads(m, tail);
    var s := PrintValue(Whole(n)) + tail;
    if n < 0 {
      assert s == "-" + (PrintNat(m) + tail);
      assert s[1..] == PrintNat(m) + tail;
    }
  }

  lemma NoConstant(s: string)
    requires s != [] && (IsDigit(s[0]) || (|s| > 1 && s[0] == '-' && IsDigit(s[1])))
    ensures ParseConstant(s).None?
  {
  }

  lemma NumberReads(n: int, tail: string)
    requires Ends(tail)
    ensures var s := PrintValue(Whole(n)) + tail;
      ParseConstant(s).None? && ParseNumber(s) == Some((Whole(n), tail))
  {
    hide PrintNat, ParseWhole, ParseConstant, TakeDigits;
    WholeReads(n, tail);
    var s := PrintValue(Whole(n)) + tail;
    var m := if n < 0 then -n else n;
    NatReads(m, tail);
    if n < 0 { assert s == "-" + (PrintNat(m) + tail) && s[1] == (PrintNat(m) + tail)[0]; }
    NoConstant(s);
  }

  lemma ValueReads(v: Value, tail: string)
    requires !v.Other? && (v.Str? ==> forall c | c in v.s :: Plain(c)) && Ends(tail)
    ensures ParseValue(PrintValue(v) + tail) == Some((v, tail))
    ensures !Space((PrintValue(v) + tail)[0])
  {
    hide PrintNat, ParseNat, ParseText, ParseWhole, ParseConstant, ParseNumber;
    var s := PrintValue(v) + tail;
    match v
    case Str(text) =>
      assert s == "\"" + (text + "\"" + tail);
      assert s[1..] == text + "\"" + tail;
      TextReads(text, tail);
    case Whole(n) =>
      WholeReads(n, tail);
      NumberReads(n, tail);
  }

  lemma MemberReads(m: Member, tail: string)
    requires Printable(m) && !m.value.Other? && Ends(tail)
    ensures ParseMember(PrintMember(m) + tail) == Some((m, tail))
    ensures (PrintMember(m) + tail)[0] == '"'
  {
    hide PrintValue, ParseText, ParseValue;
    var s := PrintMember(m) + tail;
    var value := PrintValue(m.value) + tail;
    assert s == "\"" + (m.key + "\"" + (":" + value));
    assert s[1..] == m.key + "\"" + (":" + value);
    TextReads(m.key, ":" + value);
    assert SkipSpace(":" + value) == ":" + value && (":" + value)[1..] == value;
    ValueReads(m.value, tail);
    assert SkipSpace(value) == value;
  }

  lemma {:induction false} MembersRead(members: seq<Member>)
    requires members != [] && Said(members) && forall m | m in members :: Printable(m)
    ensures ParseMembers(PrintMembers(members)) == Some((members, ""))
  {
    hide PrintMember, ParseMember, Printable;
    var s := PrintMembers(members);
    var tail := if |members| == 1 then "}" else "," + PrintMembers(members[1..]);
    assert s == PrintMember(members[0]) + tail;
    MemberReads(members[0], tail);
    assert SkipSpace(s) == s && SkipSpace(tail) == tail;
    if |members| == 1 {
      assert tail[1..] == "" && members == [members[0]];
    } else {
      MembersRead(members[1..]);
      assert tail[1..] == PrintMembers(members[1..]);
      assert [members[0]] + members[1..] == members;
    }
  }

  /** The parser undoes the printer, for every non-empty list of printable members. */
  lemma ObjectReads(members: seq<Member>)
    requires members != [] && Said(members) && forall m | m in members :: Printable(m)
    ensures ParseObject(PrintObject(members)) == Some(members)
  {
    var s := PrintObject(members);
    assert s[0] == '{' && s[1..] == PrintMembers(members);
    MembersRead(members);
    var first := PrintMembers(members);
    assert first[0] == '"' by { MemberReads(members[0], ""); }
    assert SkipSpace(first) == first;
  }

  // ----- the event -----

  const STAGING_KEPT := "bamdude-step-staging-kept "
  const LINE_LIMIT := 512
  const ENDED_LIMIT := 10_000
  const ELAPSED_LIMIT := 7 * 24 * 3600 * 1000

  const KEY_NAMES := ["elapsed_ms", "ended", "inner", "op", "outer", "v"]
  const KEYS: set<string> := set key | key in KEY_NAMES
  const OUTERS: set<string> := (set row | row in OUTER_CODES :: row.code) + {UNKNOWN}
  const INNERS: set<string> := (set row | row in INNER_CODES :: row.code) + {"not_checked", "proven", UNKNOWN}

  datatype Event = Event(op: string, outer: string, inner: string, ended: int, elapsed: int)

  /** A token proof's answer: None when it proved the end, and how many holders it ended. */
  datatype Proof = Proof(why: Option<string>, ended: int)

  /** The closed events: known codes and bounded whole numbers. */
  ghost predicate Closed(e: Event) {
    && e.op in OPS && e.outer in OUTERS && e.inner in INNERS
    && 0 <= e.ended <= ENDED_LIMIT && 0 <= e.elapsed <= ELAPSED_LIMIT
  }

  function Clamp(x: int, limit: nat): nat { if x < 0 then 0 else if x > limit then limit else x }

  /** Python's int of a float: toward zero. */
  function Truncated(x: real): int { if x < 0.0 then -(-x).Floor else x.Floor }

  function EventOf(op: string, why: string, proof: Option<Proof>, elapsed: real): Event {
    Event(op, CodeIn(why, OUTER_CODES),
          if proof.None? then "not_checked" else if proof.value.why.None? then "proven"
          else CodeIn(proof.value.why.value, INNER_CODES),
          Clamp(if proof.None? then 0 else proof.value.ended, ENDED_LIMIT),
          Clamp(Truncated(elapsed * 1000.0), ELAPSED_LIMIT))
  }

  /** The members in the order of their keys. */
  function MembersOf(e: Event): seq<Member> {
    [Member("elapsed_ms", Whole(e.elapsed)), Member("ended", Whole(e.ended)), Member("inner", Str(e.inner)),
     Member("op", Str(e.op)), Member("outer", Str(e.outer)), Member("v", Whole(1))]
  }

  function Line(e: Event): string { STAGING_KEPT + PrintObject(MembersOf(e)) }

  function StagingKeptEvent(op: string, why: string, proof: Option<Proof>, elapsed: real): string {
    Line(EventOf(op, why, proof, elapsed))
  }

  /** The dictionary of an object's members: a key given twice keeps its last value. */
  function Dict(members: seq<Member>): map<string, Value> {
    if members == [] then map[] else
      var m := members[|members| - 1];
      Dict(members[..|members| - 1])[m.key := m.value]
  }

  lemma NamesAreKeys(d: map<string, Value>)
    requires d.Keys == KEYS
    ensures "elapsed_ms" in d && "ended" in d && "inner" in d && "op" in d && "outer" in d && "v" in d
  {
    assert forall i | 0 <= i < |KEY_NAMES| :: KEY_NAMES[i] in d;
    assert KEY_NAMES[0] == "elapsed_ms" && KEY_NAMES[1] == "ended" && KEY_NAMES[2] == "inner";
    assert KEY_NAMES[3] == "op" && KEY_NAMES[4] == "outer" && KEY_NAMES[5] == "v";
  }

  /** The dictionary of a parsed line, when it is one event's. */
  function Accept(d: map<string, Value>): (e: Option<Event>)
    ensures e.Some? ==> Closed(e.value)
  {
    if d.Keys != KEYS then None else
    NamesAreKeys(d);
    if d["v"] != Whole(1) then None
    else if !d["op"].Str? || !d["outer"].Str? || !d["inner"].Str? then None
    else if d["op"].s !in OPS || d["outer"].s !in OUTERS || d["inner"].s !in INNERS then None
    else if !d["ended"].Whole? || !(0 <= d["ended"].n <= ENDED_LIMIT) then None
    else if !d["elapsed_ms"].Whole? || !(0 <= d["elapsed_ms"].n <= ELAPSED_LIMIT) then None
    else Some(Event(d["op"].s, d["outer"].s, d["inner"].s, d["ended"].n, d["elapsed_ms"].n))
  }

  /** Only a line that is exactly one event of this kind is one; what it gives is closed. */
  function ParseStagingKept(line: string): (e: Option<Event>)
    ensures e.Some? ==> Closed(e.value) && STAGING_KEPT <= line && |line| <= 512
  {
    if !(STAGING_KEPT <= line) || |line| > LINE_LIMIT then None
    else
      match ParseObject(line[|STAGING_KEPT|..])
      case None => None
      case Some(members) => Accept(Dict(members))
  }

  ghost predicate PlainCode(code: string) { |code| <= 29 && PlainText(code) }

  lemma BootstrapCodesArePlain()
    ensures PlainCode("bootstrap_boot_unknown")
    ensures PlainCode("bootstrap_record_unreadable")
    ensures PlainCode("bootstrap_unreleased_unproven")
  {
  }

  lemma UnreadableCodesArePlain()
    ensures PlainCode("group_scan_unreadable")
    ensures PlainCode("launch_unreadable")
  {
  }

  lemma OpenCodesArePlain()
    ensures PlainCode("owner_may_live")
    ensures PlainCode("bootstrap_may_live")
    ensures PlainCode("group_member_alive")
    ensures PlainCode("survivor_may_live")
  {
  }

  lemma HolderCodesArePlain()
    ensures PlainCode("holder_unreadable")
    ensures PlainCode("holder_user_unreadable")
  {
  }

  lemma UserCodesArePlain()
    ensures PlainCode("owner_names_no_user")
    ensures PlainCode("holder_survived_kill")
  {
  }

  lemma KillCodesArePlain()
    ensures PlainCode("holder_kill_denied")
    ensures PlainCode("holders_remain")
  {
  }

  lemma OuterRowIsPlain(i: nat)
    requires i < |OUTER_CODES|
    ensures PlainCode(OUTER_CODES[i].code)
  {
    hide PlainCode;
    BootstrapCodesArePlain();
    UnreadableCodesArePlain();
    OpenCodesArePlain();
  }

  lemma InnerRowIsPlain(i: nat)
    requires i < |INNER_CODES|
    ensures PlainCode(INNER_CODES[i].code)
  {
    hide PlainCode;
    HolderCodesArePlain();
    UserCodesArePlain();
    KillCodesArePlain();
  }

  lemma RowCodesArePlain(code: string, rows: seq<Row>)
    requires exists row :: row in rows && row.code == code
    requires forall i | 0 <= i < |rows| :: PlainCode(rows[i].code)
    ensures PlainCode(code)
  {
    hide PlainCode;
    var row :| row in rows && row.code == code;
    var i :| 0 <= i < |rows| && rows[i] == row;
  }

  lemma CodesArePlain(code: string)
    requires code in OUTERS || code in INNERS || code in OPS
    ensures PlainCode(code)
  {
    hide PlainCode;
    OtherCodesArePlain();
    if code in (set row | row in OUTER_CODES :: row.code) {
      forall i | 0 <= i < |OUTER_CODES| ensures PlainCode(OUTER_CODES[i].code) { OuterRowIsPlain(i); }
      RowCodesArePlain(code, OUTER_CODES);
    } else if code in (set row | row in INNER_CODES :: row.code) {
      forall i | 0 <= i < |INNER_CODES| ensures PlainCode(INNER_CODES[i].code) { InnerRowIsPlain(i); }
      RowCodesArePlain(code, INNER_CODES);
    }
  }

  lemma OtherCodesArePlain()
    ensures PlainCode("not_checked") && PlainCode("proven") && PlainCode(UNKNOWN)
    ensures PlainCode("reclaim") && PlainCode("prune")
  {
  }

  // ----- the line -----

  function Pow10(k: nat): nat { if k == 0 then 1 else 10 * Pow10(k - 1) }

  lemma {:induction false} NatLength(n: nat, k: nat)
    requires k > 0 && n < Pow10(k)
    ensures |PrintNat(n)| <= k
  {
    if n >= 10 { NatLength(n / 10, k - 1); }
  }

  lemma Limits()
    ensures ENDED_LIMIT < Pow10(5) && ELAPSED_LIMIT < Pow10(9)
  {
    assert Pow10(3) == 1000;
    assert Pow10(6) == 1000 * Pow10(3);
    assert Pow10(9) == 1000 * Pow10(6);
  }

  lemma {:induction false} MembersLength(members: seq<Member>, most: nat)
    requires members != [] && Said(members) && forall m | m in members :: |PrintMember(m)| <= most
    ensures |PrintMembers(members)| <= (most + 1) * |members|
  {
    hide PrintMember;
    if |members| > 1 { MembersLength(members[1..], most); }
  }

  lemma PrintedLength(m: Member)
    requires !m.value.Other?
    ensures |PrintMember(m)| == |m.key| + 3 + |PrintValue(m.value)|
  {
    hide PrintValue;
  }

  lemma ValueLength(e: Event, v: Value)
    requires Closed(e) && (v == Whole(e.elapsed) || v == Whole(e.ended) || v == Whole(1)
                           || v == Str(e.inner) || v == Str(e.op) || v == Str(e.outer))
    ensures |PrintValue(v)| <= 31
  {
    hide PrintNat, Closed, PlainText;
    if v.Whole? { WholeLength(e, v.n); } else { CodesOfEvent(e); }
  }

  lemma MemberLength(e: Event, m: Member)
    requires Closed(e) && m in MembersOf(e)
    ensures |PrintMember(m)| <= 44
  {
    hide Closed, PrintMember, PrintValue;
    PrintedLength(m);
    ValueLength(e, m.value);
    var i :| 0 <= i < |MembersOf(e)| && MembersOf(e)[i] == m;
    KeyMark(e, i);
  }

  lemma CodesOfEvent(e: Event)
    requires Closed(e)
    ensures PlainCode(e.op) && PlainCode(e.outer) && PlainCode(e.inner)
  {
    hide PlainCode;
    CodesArePlain(e.op);
    CodesArePlain(e.outer);
    CodesArePlain(e.inner);
  }

  lemma WholeLength(e: Event, n: int)
    requires Closed(e) && (n == 1 || n == e.ended || n == e.elapsed)
    ensures 0 <= n && |PrintNat(n)| <= 9
  {
    Limits();
    NatLength(n, 9);
  }

  lemma LineLength(e: Event)
    requires Closed(e)
    ensures |Line(e)| <= LINE_LIMIT
  {
    hide PrintMembers, PrintMember, Closed;
    var members := MembersOf(e);
    forall m | m in members ensures |PrintMember(m)| <= 44 { MemberLength(e, m); }
    MembersLength(members, 44);
  }

  lemma {:induction false} DictHolds(members: seq<Member>)
    requires forall i, j | 0 <= i < j < |members| :: members[i].key != members[j].key
    ensures forall m | m in members :: m.key in Dict(members) && Dict(members)[m.key] == m.value
    ensures forall key | key in Dict(members) :: exists m :: m in members && m.key == key
  {
    if members != [] {
      var n := |members| - 1;
      DictHolds(members[..n]);
      assert members == members[..n] + [members[n]];
    }
  }

  const MARKS: seq<(nat, char)> := [(10, 'e'), (5, 'e'), (5, 'i'), (2, 'o'), (5, 'o'), (1, 'v')]

  lemma NameMark(i: nat)
    requires i < |KEY_NAMES|
    ensures var key := KEY_NAMES[i]; key != "" && (|key|, key[0]) == MARKS[i]
  {
  }

  /** The keys differ in their length or their first letter. */
  lemma KeyMark(e: Event, i: nat)
    requires i < |MembersOf(e)|
    ensures MembersOf(e)[i].key == KEY_NAMES[i]
    ensures var key := MembersOf(e)[i].key; key != "" && (|key|, key[0]) == MARKS[i]
  {
    NameMark(i);
  }

  lemma KeysDiffer(e: Event, i: nat, j: nat)
    requires i < j < |MembersOf(e)|
    ensures MembersOf(e)[i].key != MembersOf(e)[j].key
  {
    hide MembersOf;
    SixMembers(e);
    KeyMark(e, i);
    KeyMark(e, j);
    assert MARKS[i] != MARKS[j];
  }

  lemma DictOfEvent(e: Event)
    ensures var d, m := Dict(MembersOf(e)), MembersOf(e);
      && (forall i | 0 <= i < |m| :: m[i].key in d && d[m[i].key] == m[i].value)
      && (forall key | key in d :: exists i :: 0 <= i < |m| && m[i].key == key)
  {
    hide Dict, MembersOf;
    var m := MembersOf(e);
    forall i, j | 0 <= i < j < |m| ensures m[i].key != m[j].key { KeysDiffer(e, i, j); }
    DictHolds(m);
    assert forall i | 0 <= i < |m| :: m[i] in m;
    forall key | key in Dict(m) ensures exists i :: 0 <= i < |m| && m[i].key == key {
      var x :| x in m && x.key == key;
      var i :| 0 <= i < |m| && m[i] == x;
    }
  }

  lemma KeysOfEvent(e: Event)
    ensures Dict(MembersOf(e)).Keys == KEYS
  {
    hide Dict, MembersOf;
    DictOfEvent(e);
    SixMembers(e);
    var d, m := Dict(MembersOf(e)), MembersOf(e);
    forall i | 0 <= i < |m| ensures m[i].key == KEY_NAMES[i] { KeyMark(e, i); }
    forall key | key in d ensures key in KEY_NAMES {
      var i :| 0 <= i < |m| && m[i].key == key;
      assert KEY_NAMES[i] == key;
    }
    forall key | key in KEY_NAMES ensures key in d {
      var i :| 0 <= i < |KEY_NAMES| && KEY_NAMES[i] == key;
      assert m[i].key == key;
    }
  }

  lemma SixMembers(e: Event)
    ensures |MembersOf(e)| == |KEY_NAMES| == 6
  {
  }

  lemma MembersAccepted(e: Event)
    requires Closed(e)
    ensures Accept(Dict(MembersOf(e))) == Some(e)
  {
    hide Dict, Closed;
    KeysOfEvent(e);
    DictOfEvent(e);
    var d, m := Dict(MembersOf(e)), MembersOf(e);
    assert d[m[0].key] == m[0].value && d[m[1].key] == m[1].value && d[m[2].key] == m[2].value;
    assert d[m[3].key] == m[3].value && d[m[4].key] == m[4].value && d[m[5].key] == m[5].value;
    WellSaid(e);
  }

  lemma WellSaid(e: Event)
    requires Closed(e)
    ensures e.op in OPS && e.outer in OUTERS && e.inner in INNERS
    ensures 0 <= e.ended <= ENDED_LIMIT && 0 <= e.elapsed <= ELAPSED_LIMIT
  {
  }

  /** Printing a closed event and parsing the line gives it back. */
  lemma LineReads(e: Event)
    requires Closed(e)
    ensures ParseStagingKept(Line(e)) == Some(e)
  {
    hide PrintObject, ParseObject, Accept, Dict, Closed;
    LineLength(e);
    var members := MembersOf(e);
    forall m | m in members ensures Printable(m) { MembersArePrintable(e, m); }
    ObjectReads(members);
    MembersAccepted(e);
    assert Line(e)[|STAGING_KEPT|..] == PrintObject(members);
  }

  lemma KeysArePlain()
    ensures PlainText("elapsed_ms") && PlainText("ended") && PlainText("inner")
    ensures PlainText("op") && PlainText("outer") && PlainText("v")
  {
  }

  lemma MembersArePrintable(e: Event, m: Member)
    requires Closed(e) && m in MembersOf(e)
    ensures Printable(m)
  {
    hide PlainText, Closed, MembersOf;
    var i :| 0 <= i < |MembersOf(e)| && MembersOf(e)[i] == m;
    SixMembers(e);
    KeyMark(e, i);
    NameIsPlain(i);
    ValueIsPlain(e, i);
  }

  lemma NameIsPlain(i: nat)
    requires i < |KEY_NAMES|
    ensures PlainText(KEY_NAMES[i])
  {
    hide PlainText;
    KeysArePlain();
  }

  lemma ValueIsPlain(e: Event, i: nat)
    requires Closed(e) && i < |MembersOf(e)|
    ensures var v := MembersOf(e)[i].value; v.Str? ==> PlainText(v.s)
  {
    hide PlainText, Closed;
    CodesOfEvent(e);
  }

  /** Whatever reason, proof, count and time: the line is short and reads back as the closed event it was made from. */
  lemma RoundTrip(op: string, why: string, proof: Option<Proof>, elapsed: real)
    requires op in OPS
    ensures Closed(EventOf(op, why, proof, elapsed))
    ensures |StagingKeptEvent(op, why, proof, elapsed)| <= 512
    ensures ParseStagingKept(StagingKeptEvent(op, why, proof, elapsed)) == Some(EventOf(op, why, proof, elapsed))
  {
    CodeIsKnown(why, OUTER_CODES);
    if proof.Some? && proof.value.why.Some? { CodeIsKnown(proof.value.why.value, INNER_CODES); }
    LineLength(EventOf(op, why, proof, elapsed));
    LineReads(EventOf(op, why, proof, elapsed));
  }

  function Quoted(key: string, value: string): string { "\"" + key + "\":" + value }

  /** The line as it is written. */
  lemma LineReadsSo(e: Event)
    ensures Line(e) ==
      "bamdude-step-staging-kept " + ("{"
        + (Quoted("elapsed_ms", PrintValue(Whole(e.elapsed)))
           + ("," + (Quoted("ended", PrintValue(Whole(e.ended)))
           + ("," + (Quoted("inner", "\"" + e.inner + "\"")
           + ("," + (Quoted("op", "\"" + e.op + "\"")
           + ("," + (Quoted("outer", "\"" + e.outer + "\"") + ("," + (Quoted("v", "1") + "}"))))))))))))
  {
    hide PrintNat;
    LastThree(e);
    var m := MembersOf(e);
    assert m[1..][1..] == m[2..] && m[2..][1..] == m[3..];
    assert PrintMembers(m[2..]) == Quoted("inner", "\"" + e.inner + "\"") + ("," + PrintMembers(m[3..]));
    assert PrintMembers(m[1..]) == Quoted("ended", PrintValue(Whole(e.ended))) + ("," + PrintMembers(m[2..]));
    assert PrintMembers(m) == Quoted("elapsed_ms", PrintValue(Whole(e.elapsed))) + ("," + PrintMembers(m[1..]));
  }

  lemma LastThree(e: Event)
    ensures PrintMembers(MembersOf(e)[3..]) ==
      Quoted("op", "\"" + e.op + "\"")
      + ("," + (Quoted("outer", "\"" + e.outer + "\"") + ("," + (Quoted("v", "1") + "}"))))
  {
    hide PrintNat;
    var m := MembersOf(e);
    assert m[3..][1..] == m[4..] && m[4..][1..] == m[5..];
    assert PrintNat(1) == "1" by { OnePrints(); }
    assert PrintMembers(m[5..]) == Quoted("v", "1") + "}";
    assert PrintMembers(m[4..]) == Quoted("outer", "\"" + e.outer + "\"") + ("," + PrintMembers(m[5..]));
    assert PrintMembers(m[3..]) == Quoted("op", "\"" + e.op + "\"") + ("," + PrintMembers(m[4..]));
  }

  lemma OnePrints()
    ensures PrintNat(1) == "1"
  {
  }

  /** A dictionary is an event's if and only if it has the six keys and no other, version 1, known codes as strings, and
      whole numbers within their bounds. */
  lemma AcceptsExactly(d: map<string, Value>, e: Event)
    ensures Accept(d) == Some(e) <==>
      && d.Keys == {"elapsed_ms", "ended", "inner", "op", "outer", "v"}
      && d["v"] == Whole(1) && d["op"] == Str(e.op) && d["outer"] == Str(e.outer) && d["inner"] == Str(e.inner)
      && d["ended"] == Whole(e.ended) && d["elapsed_ms"] == Whole(e.elapsed)
      && (e.op == "reclaim" || e.op == "prune") && e.outer in OUTERS && e.inner in INNERS
      && 0 <= e.ended <= 10_000 && 0 <= e.elapsed <= 604_800_000
  {
    hide OUTERS, INNERS, KEYS, KEY_NAMES;
    KeysAre();
    if d.Keys == KEYS { NamesAreKeys(d); }
  }

  lemma KeysAre()
    ensures KEYS == {"elapsed_ms", "ended", "inner", "op", "outer", "v"}
  {
    assert KEY_NAMES[0] == "elapsed_ms" && KEY_NAMES[1] == "ended" && KEY_NAMES[2] == "inner";
    assert KEY_NAMES[3] == "op" && KEY_NAMES[4] == "outer" && KEY_NAMES[5] == "v";
  }

  /** What the line's event says of the judgement: nothing was asked, or proven, or the code of the proof's own reason;
      how many holders that very proof ended, and how long it took, each within its bound. */
  lemma EventTells(op: string, why: string, proof: Option<Proof>, elapsed: real)
    ensures var e := EventOf(op, why, proof, elapsed);
      && e.op == op && e.outer == CodeIn(why, OUTER_CODES)
      && (proof.None? ==> e.inner == "not_checked" && e.ended == 0)
      && (proof.Some? && proof.value.why.None? ==> e.inner == "proven")
      && (proof.Some? && proof.value.why.Some? ==> e.inner == CodeIn(proof.value.why.value, INNER_CODES))
      && (proof.Some? && 0 <= proof.value.ended <= 10_000 ==> e.ended == proof.value.ended)
      && (proof.Some? && proof.value.ended < 0 ==> e.ended == 0)
      && (proof.Some? && proof.value.ended > 10_000 ==> e.ended == 10_000)
      && (elapsed <= 0.0 ==> e.elapsed == 0)
      && (0.0 <= elapsed <= 604_800.0 ==> e.elapsed as real <= elapsed * 1000.0 < (e.elapsed + 1) as real)
      && (elapsed >= 604_800.0 ==> e.elapsed == 604_800_000)
  {
    hide CodeIn;
  }

  /** The codes of the token proof's own reasons: three are told by their whole text, three by how they begin. */
  lemma InnerCodes(rest: string)
    ensures CodeIn("a possible holder unreadable", INNER_CODES) == "holder_unreadable"
    ensures CodeIn("a holder's user unreadable", INNER_CODES) == "holder_user_unreadable"
    ensures CodeIn("run owner names no user", INNER_CODES) == "owner_names_no_user"
    ensures CodeIn("holder still running after its kill " + rest, INNER_CODES) == "holder_survived_kill"
    ensures CodeIn("holder access denied " + rest, INNER_CODES) == "holder_kill_denied"
    ensures CodeIn("holders still found after " + rest, INNER_CODES) == "holders_remain"
  {
    InnerCode("a possible holder unreadable", 0);
    InnerCode("a holder's user unreadable", 1);
    InnerCode("run owner names no user", 2);
    StartsWith("holder still running after its kill ", rest);
    InnerCode("holder still running after its kill " + rest, 3);
    StartsWith("holder access denied ", rest);
    InnerCode("holder access denied " + rest, 4);
    StartsWith("holders still found after ", rest);
    InnerCode("holders still found after " + rest, 5);
  }

  lemma StartsWith(text: string, rest: string)
    ensures text <= text + rest
  {
  }

  lemma InnerCode(why: string, i: nat)
    requires i < 6 && Matches(why, INNER_CODES[i])
    ensures CodeIn(why, INNER_CODES) == INNER_CODES[i].code
  {
    forall k | 0 <= k < i ensures !Matches(why, INNER_CODES[k]) { InnerRowsDiffer(why, k, i); }
    FirstMatch(why, INNER_CODES, i);
  }

  /** The letter by which two of the rows' texts differ. */
  function InnerMark(k: nat, i: nat): nat
    requires k < i < 6
  {
    if i == 1 then 2 else if i == 2 then 0 else if i == 3 then 0
    else if i == 4 then (if k == 3 then 7 else 0) else if k == 3 || k == 4 then 6 else 0
  }

  lemma InnerRowsDiffer(why: string, k: nat, i: nat)
    requires k < i < 6 && Matches(why, INNER_CODES[i])
    ensures !Matches(why, INNER_CODES[k])
  {
    var m := InnerMark(k, i);
    InnerTextsDiffer(k, i);
    assert why[m] == INNER_CODES[i].text[m];
    Differs(why, INNER_CODES[k], m);
  }

  lemma InnerTextsDiffer(k: nat, i: nat)
    requires k < i < 6
    ensures var m := InnerMark(k, i); var x, y := INNER_CODES[k].text, INNER_CODES[i].text;
      m < |x| && m < |y| && x[m] != y[m]
  {
    InnerTexts();
    match i
    case 1 =>
    case 2 =>
    case 3 =>
    case 4 =>
    case _ =>
  }

  lemma InnerTexts()
    ensures INNER_CODES[0].text == "a possible holder unreadable"
    ensures INNER_CODES[1].text == "a holder's user unreadable" && INNER_CODES[2].text == "run owner names no user"
    ensures INNER_CODES[3].text == "holder still running after its kill "
    ensures INNER_CODES[4].text == "holder access denied " && INNER_CODES[5].text == "holders still found after "
  {
  }

  lemma {:induction false} CodeIsKnown(why: string, codes: seq<Row>)
    ensures CodeIn(why, codes) == UNKNOWN || exists row :: row in codes && row.code == CodeIn(why, codes)
  {
    if codes != [] && !Matches(why, codes[0]) { CodeIsKnown(why, codes[1..]); }
  }
}
