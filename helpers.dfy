/** The pure domain helpers: progress, status from the date window, the
    label/colour/icon tables, text shortening and the phone and e-mail
    checks. The current time and hour are parameters. */
module Helpers {
  import opened Wrappers
  import opened Models
  import Seqs

  /** `getCampaignStatus` at time `now`: before the start the campaign is
      upcoming, after the end it is completed, and in between (both
      boundary instants included) it is active. */
  function CampaignStatusAt(c: Campaign, now: int): (r: CampaignStatus)
    ensures r == Upcoming <==> now < c.startDate
    ensures r == CampaignStatus.Completed <==> c.startDate <= now && c.endDate < now
    ensures r == Active <==> c.startDate <= now <= c.endDate
  {
    if now < c.startDate then Upcoming
    else if now > c.endDate then CampaignStatus.Completed
    else Active
  }

  // ---------------------------------------------------------------------
  // Lookup tables with a fallback for unknown keys

  const STATUS_LABELS: map<string, string> := map[
    "active" := "En cours", "completed" := "Terminée", "upcoming" := "À venir",
    "pending" := "En attente", "confirmed" := "Confirmé"]

  const STATUS_COLORS: map<string, string> := map[
    "active" := "#4CAF50", "completed" := "#6B6B6B", "upcoming" := "#FF9800",
    "pending" := "#FF9800", "confirmed" := "#4CAF50"]

  const CATEGORY_LABELS: map<string, string> := map[
    "ramadan" := "Ramadan", "eid" := "Aïd", "winter" := "Hiver",
    "neighborhood" := "Quartier", "other" := "Autre"]

  const CATEGORY_ICONS: map<string, string> := map[
    "ramadan" := "moon", "eid" := "gift", "winter" := "snow",
    "neighborhood" := "home", "other" := "heart"]

  const CATEGORY_COLORS: map<string, string> := map[
    "ramadan" := "#1E5631", "eid" := "#C9A227", "winter" := "#5B7C99",
    "neighborhood" := "#8B6914", "other" := "#2D5A3D"]

  /** `table[key] || fallback` over a table whose values are all non-empty. */
  function Lookup(table: map<string, string>, key: string, fallback: string): (r: string)
    ensures key in table ==> r == table[key]
    ensures key !in table ==> r == fallback
  {
    if key in table then table[key] else fallback
  }

  function StatusLabel(status: string): (r: string)
    ensures status in STATUS_LABELS ==> r == STATUS_LABELS[status]
    ensures status !in STATUS_LABELS ==> r == status
  {
    Lookup(STATUS_LABELS, status, status)
  }

  function StatusColor(status: string): (r: string)
    ensures status in STATUS_COLORS ==> r == STATUS_COLORS[status]
    ensures status !in STATUS_COLORS ==> r == "#6B6B6B"
  {
    Lookup(STATUS_COLORS, status, "#6B6B6B")
  }

  function CategoryLabel(category: string): (r: string)
    ensures category in CATEGORY_LABELS ==> r == CATEGORY_LABELS[category]
    ensures category !in CATEGORY_LABELS ==> r == category
  {
    Lookup(CATEGORY_LABELS, category, category)
  }

  function CategoryIcon(category: string): (r: string)
    ensures category in CATEGORY_ICONS ==> r == CATEGORY_ICONS[category]
    ensures category !in CATEGORY_ICONS ==> r == "heart"
  {
    Lookup(CATEGORY_ICONS, category, "heart")
  }

  function CategoryColor(category: string): (r: string)
    ensures category in CATEGORY_COLORS ==> r == CATEGORY_COLORS[category]
    ensures category !in CATEGORY_COLORS ==> r == "#2D5A3D"
  {
    Lookup(CATEGORY_COLORS, category, "#2D5A3D")
  }

  /** Every campaign category and status has its own entry in the tables,
      so the fallbacks only ever serve keys outside the enumerations. */
  lemma TablesCoverEnumerations(c: Category, s: CampaignStatus)
    ensures CategoryKey(c) in CATEGORY_LABELS && CategoryKey(c) in CATEGORY_ICONS && CategoryKey(c) in CATEGORY_COLORS
    ensures StatusKey(s) in STATUS_LABELS && StatusKey(s) in STATUS_COLORS
  {
  }

  // ---------------------------------------------------------------------
  // Progress, with exact arithmetic

  predicate NonNegative(n: Need)
  {
    n.quantityRequired >= 0 && n.quantityFulfilled >= 0
  }

  /** `calculateProgress`: the fulfilled share of a need, in percent, capped
      at 100, and 0 for a need that requires nothing. */
  function Progress(n: Need): (r: real)
    ensures n.quantityRequired == 0 ==> r == 0.0
    ensures r <= 100.0
    ensures NonNegative(n) ==> 0.0 <= r
  {
    if n.quantityRequired == 0 then 0.0
    else
      var ratio := n.quantityFulfilled as real / n.quantityRequired as real * 100.0;
      if ratio < 100.0 then ratio else 100.0
  }

  /** A need with a positive requirement is at 100 exactly when it is
      fulfilled, and below that its progress is the fulfilled percentage. */
  lemma ProgressPercentage(n: Need)
    requires n.quantityRequired > 0
    ensures Progress(n) == 100.0 <==> n.quantityFulfilled >= n.quantityRequired
    ensures n.quantityFulfilled <= n.quantityRequired ==>
              Progress(n) * n.quantityRequired as real == 100.0 * n.quantityFulfilled as real
  {
  }

  /** More fulfilled never means less progress. */
  lemma ProgressMonotone(n: Need, more: int)
    requires n.quantityRequired > 0 && n.quantityFulfilled <= more
    ensures Progress(n) <= Progress(n.(quantityFulfilled := more))
  {
    var q := n.quantityRequired as real;
    var a, b := n.quantityFulfilled as real, more as real;
    assert b / q - a / q == (b - a) / q;
    assert (b - a) / q >= 0.0;
    assert a / q <= b / q;
  }

  /** A `reduce` sum, folded from the left. */
  function Sum(xs: seq<real>): (r: real)
    ensures (forall i :: 0 <= i < |xs| ==> xs[i] <= 100.0) ==> r <= 100.0 * |xs| as real
    ensures (forall i :: 0 <= i < |xs| ==> 0.0 <= xs[i]) ==> 0.0 <= r
  {
    if xs == [] then 0.0 else Sum(xs[..|xs| - 1]) + xs[|xs| - 1]
  }

  /** The progress of each need, in order. */
  function NeedProgresses(needs: seq<Need>): (r: seq<real>)
    ensures |r| == |needs| && forall i :: 0 <= i < |r| ==> r[i] == Progress(needs[i])
  {
    Seqs.Map(needs, Progress)
  }

  /** `calculateCampaignProgress`: 0 without needs, otherwise the mean of
      the needs' progress, so never above 100 and never negative when the
      quantities are not. */
  function CampaignProgress(c: Campaign): (r: real)
    ensures |c.needs| == 0 ==> r == 0.0
    ensures r <= 100.0
    ensures (forall n :: n in c.needs ==> NonNegative(n)) ==> 0.0 <= r
  {
    if |c.needs| == 0 then 0.0
    else
      var xs := NeedProgresses(c.needs);
      assert forall i :: 0 <= i < |xs| ==> xs[i] <= 100.0;
      MeanBounds(Sum(xs), |c.needs| as real);
      Sum(xs) / |c.needs| as real
  }

  /** A total of `k` terms, each at most 100, averages at most 100; a
      nonnegative total averages nonnegative. */
  lemma MeanBounds(total: real, k: real)
    requires k > 0.0 && total <= 100.0 * k
    ensures total / k <= 100.0
    ensures 0.0 <= total ==> 0.0 <= total / k
  {
  }

  /** `p` added to itself `k` times. */
  function Times(k: nat, p: real): real
  {
    if k == 0 then 0.0 else Times(k - 1, p) + p
  }

  lemma {:induction false} TimesIsProduct(k: nat, p: real)
    ensures Times(k, p) == k as real * p
  {
    if k > 0 {
      TimesIsProduct(k - 1, p);
      assert k as real * p == (k - 1) as real * p + p;
    }
  }

  lemma TimesMean(k: nat, p: real)
    requires k > 0
    ensures Times(k, p) / k as real == p
  {
    TimesIsProduct(k, p);
  }

  lemma {:induction false} SumUniform(xs: seq<real>, p: real)
    requires forall i :: 0 <= i < |xs| ==> xs[i] == p
    ensures Sum(xs) == Times(|xs|, p)
  {
    if xs != [] {
      SumUniform(xs[..|xs| - 1], p);
    }
  }

  /** The campaign progress is a mean: when every need is at the same
      progress, so is the campaign. */
  lemma CampaignProgressUniform(c: Campaign, p: real)
    requires |c.needs| > 0
    requires forall n :: n in c.needs ==> Progress(n) == p
    ensures CampaignProgress(c) == p
  {
    var xs := NeedProgresses(c.needs);
    assert forall i :: 0 <= i < |xs| ==> xs[i] == p by {
      forall i | 0 <= i < |xs| ensures xs[i] == p {
        assert c.needs[i] in c.needs;
      }
    }
    MeanUniform(xs, p);
  }

  lemma MeanUniform(xs: seq<real>, p: real)
    requires |xs| > 0 && forall i :: 0 <= i < |xs| ==> xs[i] == p
    ensures Sum(xs) / |xs| as real == p
  {
    SumUniform(xs, p);
    TimesMean(|xs|, p);
  }

  /** Two needs of 100 at 40 and 60 give a campaign at 50. */
  lemma CampaignProgressExample(c: Campaign, a: Need, b: Need)
    requires a.quantityRequired == 100 && a.quantityFulfilled == 40
    requires b.quantityRequired == 100 && b.quantityFulfilled == 60
    requires c.needs == [a, b]
    ensures CampaignProgress(c) == 50.0
  {
    assert Progress(a) == 40.0;
    assert Progress(b) == 60.0;
    var xs := NeedProgresses(c.needs);
    assert xs == [40.0, 60.0];
    assert xs[..1] == [40.0];
    assert [40.0][..0] == [];
    assert Sum(xs) == 100.0;
  }

  // ---------------------------------------------------------------------
  // Need types, text and greetings

  function NeedTypeLabel(t: NeedType): (r: string)
    ensures t == Material ==> r == "Don matériel"
    ensures t == Volunteer ==> r == "Bénévolat"
  {
    if t == Material then "Don matériel" else "Bénévolat"
  }

  function NeedTypeIcon(t: NeedType): (r: string)
    ensures t == Material ==> r == "cube"
    ensures t == Volunteer ==> r == "people"
  {
    if t == Material then "cube" else "people"
  }

  /** `truncateText`: a text within the limit comes back as it is; a longer
      one is cut to the limit (a negative limit counts as 0, as `substring`
      does) and marked with three dots. */
  function TruncateText(text: string, maxLength: int): (r: string)
    ensures |text| <= maxLength ==> r == text
    ensures maxLength < |text| ==>
              var k := if maxLength < 0 then 0 else maxLength;
              |r| == k + 3 && r[..k] == text[..k] && r[k..] == "..."
  {
    if |text| <= maxLength then text
    else text[..if maxLength < 0 then 0 else maxLength] + "..."
  }

  /** Truncating an already truncated text changes nothing. */
  lemma TruncateIdempotent(text: string, maxLength: int)
    ensures TruncateText(TruncateText(text, maxLength), maxLength) == TruncateText(text, maxLength)
  {
    if maxLength < |text| {
      var k := if maxLength < 0 then 0 else maxLength;
      var once := TruncateText(text, maxLength);
      assert once[..k] + "..." == once;
    }
  }

  /** `getGreeting` for the given hour of the day. */
  function Greeting(hour: int): (r: string)
    ensures r == "Bonjour" <==> hour < 12
    ensures r == "Bon après-midi" <==> 12 <= hour < 18
    ensures r == "Bonsoir" <==> 18 <= hour
  {
    if hour < 12 then "Bonjour" else if hour < 18 then "Bon après-midi" else "Bonsoir"
  }

  // ---------------------------------------------------------------------
  // Phone numbers and e-mail addresses

  /** `\d` in a regular expression without the Unicode flag. */
  predicate IsDigit(c: char)
  {
    '0' <= c <= '9'
  }

  /** `\s` in a JavaScript regular expression. */
  predicate IsWhitespace(c: char)
  {
    var k := c as int;
    k == 0x09 || k == 0x0A || k == 0x0B || k == 0x0C || k == 0x0D || k == 0x20 ||
    k == 0xA0 || k == 0x1680 || (0x2000 <= k <= 0x200A) || k == 0x2028 || k == 0x2029 ||
    k == 0x202F || k == 0x205F || k == 0x3000 || k == 0xFEFF
  }

  predicate NotWhitespace(c: char)
  {
    !IsWhitespace(c)
  }

  predicate AllDigits(s: string)
  {
    forall i :: 0 <= i < |s| ==> IsDigit(s[i])
  }

  /** `phone.replace(/\D/g, '')`. */
  function Digits(s: string): (r: string)
    ensures AllDigits(r)
  {
    Seqs.Filter(s, IsDigit)
  }

  /** `phone.replace(/\s/g, '')`. */
  function StripWhitespace(s: string): string
  {
    Seqs.Filter(s, NotWhitespace)
  }

  /** `formatPhoneNumber`: ten digits are shown as five pairs separated by
      single spaces; any other input comes back unchanged. */
  function FormatPhoneNumber(phone: string): (r: string)
    ensures |Digits(phone)| != 10 ==> r == phone
    ensures |Digits(phone)| == 10 ==> |r| == 14
  {
    var d := Digits(phone);
    if |d| == 10 then d[0..2] + " " + d[2..4] + " " + d[4..6] + " " + d[6..8] + " " + d[8..]
    else phone
  }

  /** Ten digits come out as `DD DD DD DD DD`: a space at every third
      position, the digits in order everywhere else. */
  lemma FormatPhoneShape(phone: string)
    requires |Digits(phone)| == 10
    ensures var r := FormatPhoneNumber(phone);
            r[2] == ' ' && r[5] == ' ' && r[8] == ' ' && r[11] == ' ' &&
            forall i :: 0 <= i < 14 && i % 3 != 2 ==> r[i] == Digits(phone)[i - i / 3] && IsDigit(r[i])
  {
    var d := Digits(phone);
    var r := FormatPhoneNumber(phone);
    var g := [d[0], d[1], ' ', d[2], d[3], ' ', d[4], d[5], ' ', d[6], d[7], ' ', d[8], d[9]];
    assert r == d[0..2] + " " + d[2..4] + " " + d[4..6] + " " + d[6..8] + " " + d[8..];
    assert r == g;
    forall i | 0 <= i < 14 && i % 3 != 2
      ensures r[i] == d[i - i / 3] && IsDigit(r[i])
    {
      var j := i - i / 3;
      assert 0 <= j < 10 && g[i] == d[j];
      assert IsDigit(d[j]);
    }
  }

  /** Digits followed by a space and more text: the space contributes no digit. */
  lemma DigitsAfterGroup(group: string, rest: string)
    requires AllDigits(group)
    ensures Digits(group + " " + rest) == group + Digits(rest)
  {
    var sp := " ";
    assert !IsDigit(sp[0]);
    assert Seqs.Filter(sp[1..], IsDigit) == [];
    Seqs.FilterAll(group, IsDigit);
    Seqs.FilterAppend(group, sp, IsDigit);
    Seqs.FilterAppend(group + sp, rest, IsDigit);
  }

  /** The formatted number has the same digits as the input, in order. */
  lemma FormatPhoneKeepsDigits(phone: string)
    ensures Digits(FormatPhoneNumber(phone)) == Digits(phone)
  {
    var d := Digits(phone);
    if |d| == 10 {
      var t4 := d[8..];
      var t3 := d[6..8] + " " + t4;
      var t2 := d[4..6] + " " + t3;
      var t1 := d[2..4] + " " + t2;
      assert FormatPhoneNumber(phone) == d[0..2] + " " + t1;
      Seqs.FilterAll(t4, IsDigit);
      DigitsAfterGroup(d[6..8], t4);
      DigitsAfterGroup(d[4..6], t3);
      DigitsAfterGroup(d[2..4], t2);
      DigitsAfterGroup(d[0..2], t1);
      assert d[0..2] + (d[2..4] + (d[4..6] + (d[6..8] + d[8..]))) == d;
    }
  }

  /** Formatting a formatted number changes nothing. */
  lemma FormatPhoneIdempotent(phone: string)
    ensures FormatPhoneNumber(FormatPhoneNumber(phone)) == FormatPhoneNumber(phone)
  {
    FormatPhoneKeepsDigits(phone);
    var r := FormatPhoneNumber(phone);
    if |Digits(phone)| == 10 {
      var d := Digits(phone);
      assert r == d[0..2] + " " + d[2..4] + " " + d[4..6] + " " + d[6..8] + " " + d[8..];
    }
  }

  /** `/^(\+212|0)[5-7]\d{8}$/`: the Moroccan international or national
      form of a mobile or landline number. */
  predicate PhoneShape(s: string)
    ensures PhoneShape(s) ==> (|s| == 10 && s[0] == '0') || (|s| == 13 && s[0] == '+')
  {
    (|s| == 13 && s[..4] == "+212" && '5' <= s[4] <= '7' && AllDigits(s[5..])) ||
    (|s| == 10 && s[0] == '0' && '5' <= s[1] <= '7' && AllDigits(s[2..]))
  }

  /** `validatePhone`: the number matches the pattern once every whitespace
      character is removed. */
  predicate ValidatePhone(phone: string)
    ensures ValidatePhone(phone) ==> |StripWhitespace(phone)| == 10 || |StripWhitespace(phone)| == 13
  {
    PhoneShape(StripWhitespace(phone))
  }

  /** A digit is never whitespace, so stripping whitespace keeps the digits. */
  lemma DigitsOfStripped(phone: string)
    ensures Digits(StripWhitespace(phone)) == Digits(phone)
  {
    Seqs.FilterFilter(phone, NotWhitespace, IsDigit);
  }

  /** A valid number in the national form (leading `0`) has ten digits and
      so is shown in pairs. */
  lemma ValidNationalPhoneIsFormatted(phone: string)
    requires ValidatePhone(phone)
    requires StripWhitespace(phone)[0] == '0'
    ensures |FormatPhoneNumber(phone)| == 14
  {
    var s := StripWhitespace(phone);
    DigitsOfStripped(phone);
    Seqs.FilterAll(s, IsDigit);
  }

  /** A valid number in the international form (`+212`) has twelve digits,
      so formatting leaves it exactly as typed. */
  lemma ValidInternationalPhoneIsKept(phone: string)
    requires ValidatePhone(phone)
    requires StripWhitespace(phone)[0] == '+'
    ensures FormatPhoneNumber(phone) == phone
  {
    var s := StripWhitespace(phone);
    assert |s| == 13 && s[..4] == "+212";
    var tail := s[1..];
    assert AllDigits(tail) by {
      assert tail[..3] == "212";
      assert forall i :: 4 <= i < 12 ==> tail[i] == s[5..][i - 4];
    }
    DigitsOfStripped(phone);
    assert s == [s[0]] + tail;
    Seqs.FilterAppend([s[0]], tail, IsDigit);
    Seqs.FilterAll(tail, IsDigit);
    assert |Digits(phone)| == 12;
  }

  /** One match of `/^[^\s@]+@[^\s@]+\.[^\s@]+$/`: the `@` at `at` and the
      separating dot at `dot`, with no other `@` and no whitespace anywhere. */
  ghost predicate EmailMatchAt(e: string, at: nat, dot: nat)
  {
    0 < at && at + 1 < dot < |e| - 1 && e[at] == '@' && e[dot] == '.' &&
    forall i :: 0 <= i < |e| && i != at ==> e[i] != '@' && !IsWhitespace(e[i])
  }

  predicate IsAt(c: char)
  {
    c == '@'
  }

  /** `validateEmail`: split at the first `@`, then check both sides. */
  predicate ValidateEmail(e: string)
    ensures ValidateEmail(e) ==> |e| >= 5 && e[0] != '@' && e[|e| - 1] != '@'
  {
    match Seqs.FindIndex(e, IsAt)
    case None => false
    case Some(at) =>
      at > 0 &&
      (forall i :: 0 <= i < |e| && i != at ==> e[i] != '@' && !IsWhitespace(e[i])) &&
      exists dot :: at + 1 < dot < |e| - 1 && e[dot] == '.'
  }

  /** The split-based check accepts exactly the strings the regular
      expression matches. */
  lemma ValidateEmailMatchesPattern(e: string)
    ensures ValidateEmail(e) <==> exists at: nat, dot: nat :: EmailMatchAt(e, at, dot)
  {
    if ValidateEmail(e) {
      var at := Seqs.FindIndex(e, IsAt).value;
      var dot :| at + 1 < dot < |e| - 1 && e[dot] == '.';
      assert EmailMatchAt(e, at, dot);
    }
    if exists at: nat, dot: nat :: EmailMatchAt(e, at, dot) {
      var at: nat, dot: nat :| EmailMatchAt(e, at, dot);
      assert IsAt(e[at]);
      var found := Seqs.FindIndex(e, IsAt);
      assert found.Some? && found.value == at;
    }
  }
}
