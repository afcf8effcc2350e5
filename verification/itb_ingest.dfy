/** Ingesting an invitation-to-bid email into a ConstructConnect
    opportunity: the regular expressions find the pieces of the message,
    and this module assembles the record's values from what they captured. */
module ItbIngest {
  import opened Wrappers
  import Text
  import Numerals

  /** What the regular expressions captured from one email (None where a
      pattern did not match).  `date` holds the month name, day digits and
      year digits the date pattern found inside the bid text;
      `description` is the description paragraph before tags are removed. */
  datatype Captures = Captures(
    subject: Option<string>, name: Option<string>, url: Option<string>,
    projectId: Option<string>, accessCode: Option<string>,
    bid: Option<string>, date: Option<(string, string, string)>,
    location: Option<string>, gc: Option<string>, contact: Option<string>,
    description: Option<string>)

  /** The values the new record is created with (None where the field is
      left unset). */
  datatype Values = Values(
    name: string, sourceUrl: Option<string>, projectId: Option<string>,
    accessCode: Option<string>, bidTime: Option<string>, bidDate: Option<string>,
    street: Option<string>, city: Option<string>, stateCode: Option<string>,
    zip: Option<string>, gcName: Option<string>, architectName: Option<string>,
    ownerName: Option<string>, state: string)

  const DescriptionLimit: nat := 200

  const MonthNames: seq<string> := ["January", "February", "March", "April", "May", "June",
                                    "July", "August", "September", "October", "November", "December"]

  /** The month number of an English month name, 1 for anything else. */
  function MonthNumber(s: string): (m: nat)
    ensures 1 <= m <= 12
    ensures forall k :: 0 <= k < 12 && MonthNames[k] == s ==> m == k + 1
  {
    MonthFrom(s, 0)
  }

  function MonthFrom(s: string, k: nat): (m: nat)
    requires k <= 12
    ensures 1 <= m <= 12
    ensures forall j :: k <= j < 12 && MonthNames[j] == s ==> m == j + 1
    ensures (forall j :: k <= j < 12 ==> MonthNames[j] != s) ==> m == 1
    decreases 12 - k
  {
    if k == 12 then 1
    else if MonthNames[k] == s then
      assert forall j :: k < j < 12 ==> MonthNames[j] != MonthNames[k];
      k + 1
    else MonthFrom(s, k + 1)
  }

  /** The subject with the invitation prefix and the trade suffix removed. */
  function SubjectName(subject: string): string
  {
    Text.Strip(Text.ReplaceAll(Text.ReplaceAll(subject, "Invitation to Bid -", ""), ": Main Trades", ""))
  }

  /** The project name: the invited-to paragraph when found, else the
      cleaned subject ("New ITB" when the email had none). */
  function ProjectName(c: Captures): (r: string)
    ensures c.name.Some? ==> r == Text.Strip(c.name.value)
    ensures c.name.None? ==> r == SubjectName(c.subject.GetOr("New ITB"))
  {
    match c.name
    case Some(n) => Text.Strip(n)
    case None => SubjectName(c.subject.GetOr("New ITB"))
  }

  /** `f"{year}-{month:02d}-{day:02d}"`. */
  function DateText(year: nat, month: nat, day: nat): (r: string)
  {
    Numerals.NatText(year) + "-" + Numerals.Pad2(month) + "-" + Numerals.Pad2(day)
  }

  /** The bid date, when the date pattern matched. */
  function BidDate(date: Option<(string, string, string)>): (r: Option<string>)
    requires date.Some? ==> Numerals.AllDigits(date.value.1) && Numerals.AllDigits(date.value.2)
    ensures r.Some? <==> date.Some?
  {
    match date
    case None => None
    case Some((month, day, year)) =>
      Some(DateText(Numerals.ParseNat(year), MonthNumber(month), Numerals.ParseNat(day)))
  }

  /** The address fields a location line fills in. */
  datatype Address = Address(street: Option<string>, city: Option<string>,
                             stateCode: Option<string>, zip: Option<string>)

  /** The address fields from the comma-separated parts of a location
      line such as "840 Asp Ave, Norman, OK 73069": with two parts only
      the street is set; with three or more the city is the second part,
      and the state and zip are the first two words of the last part when
      it has two or more. */
  function LocationParts(parts: seq<string>): (a: Address)
    ensures |parts| < 2 ==> a == Address(None, None, None, None)
    ensures |parts| >= 2 ==> a.street == Some(Text.Strip(parts[0]))
    ensures |parts| == 2 ==> a.city.None? && a.stateCode.None? && a.zip.None?
    ensures |parts| >= 3 ==> a.city == Some(Text.Strip(parts[1]))
    ensures |parts| >= 3 && |Text.Words(Text.Strip(parts[|parts| - 1]))| >= 2 ==>
      && a.stateCode == Some(Text.Words(Text.Strip(parts[|parts| - 1]))[0])
      && a.zip == Some(Text.Words(Text.Strip(parts[|parts| - 1]))[1])
    ensures |parts| >= 3 && |Text.Words(Text.Strip(parts[|parts| - 1]))| < 2 ==>
      a.stateCode.None? && a.zip.None?
  {
    if |parts| < 2 then Address(None, None, None, None)
    else if |parts| == 2 then Address(Some(Text.Strip(parts[0])), None, None, None)
    else
      var words := Text.Words(Text.Strip(parts[|parts| - 1]));
      if |words| >= 2 then
        Address(Some(Text.Strip(parts[0])), Some(Text.Strip(parts[1])), Some(words[0]), Some(words[1]))
      else Address(Some(Text.Strip(parts[0])), Some(Text.Strip(parts[1])), None, None)
  }

  /** The captured location, stripped and split at its commas. */
  function ParseLocation(location: string): Address {
    LocationParts(Text.Split(Text.Strip(location), ','))
  }

  /** The description paragraph with tags removed and whitespace collapsed
      and stripped. */
  function Cleaned(raw: string): string {
    Text.Strip(Text.CollapseSpace(Text.StripTags(raw)))
  }

  /** The cleaned description, cut to the limit: a cleaned text within the
      limit is kept whole, and a longer one gives its first 200
      characters. */
  function Description(raw: string): (r: string)
    ensures |r| <= DescriptionLimit
    ensures |Cleaned(raw)| <= DescriptionLimit ==> r == Cleaned(raw)
    ensures |Cleaned(raw)| > DescriptionLimit ==> r == Cleaned(raw)[..DescriptionLimit]
  {
    Text.Take(Cleaned(raw), DescriptionLimit)
  }

  function StripOpt(o: Option<string>): (r: Option<string>)
    ensures r.Some? <==> o.Some?
    ensures o.Some? ==> r.value == Text.Strip(o.value)
  {
    match o
    case None => None
    case Some(s) => Some(Text.Strip(s))
  }

  /** `message_new`'s field assembly. */
  function Assemble(c: Captures): (v: Values)
    requires c.date.Some? ==> Numerals.AllDigits(c.date.value.1) && Numerals.AllDigits(c.date.value.2)
    ensures v.name == "ITB: " + ProjectName(c)
    ensures v.state == "new"
    ensures v.sourceUrl.Some? <==> c.url.Some?
    ensures c.url.Some? ==> v.sourceUrl.value == Text.ReplaceAll(c.url.value, "&amp;", "&")
    ensures (v.projectId, v.accessCode) == (c.projectId, c.accessCode)
    ensures v.bidTime == StripOpt(c.bid)
    ensures v.bidDate.Some? <==> c.bid.Some? && c.date.Some?
    ensures v.gcName == StripOpt(c.gc) && v.architectName == StripOpt(c.contact)
    ensures c.location.None? ==> v.street.None? && v.city.None? && v.stateCode.None? && v.zip.None?
    ensures c.location.Some? ==>
      Address(v.street, v.city, v.stateCode, v.zip) == ParseLocation(c.location.value)
    ensures v.ownerName.Some? <==> c.description.Some?
    ensures v.ownerName.Some? ==> |v.ownerName.value| <= DescriptionLimit
  {
    var addr := if c.location.Some? then ParseLocation(c.location.value) else Address(None, None, None, None);
    Values(
      "ITB: " + ProjectName(c),
      if c.url.Some? then Some(Text.ReplaceAll(c.url.value, "&amp;", "&")) else None,
      c.projectId, c.accessCode,
      StripOpt(c.bid),
      if c.bid.Some? then BidDate(c.date) else None,
      addr.street, addr.city, addr.stateCode, addr.zip,
      StripOpt(c.gc), StripOpt(c.contact),
      if c.description.Some? then Some(Description(c.description.value)) else None,
      "new")
  }

  /** A link whose ampersands the email escaped comes back as the link
      itself. */
  lemma SourceUrlRoundTrip(c: Captures, link: string)
    requires c.date.Some? ==> Numerals.AllDigits(c.date.value.1) && Numerals.AllDigits(c.date.value.2)
    requires c.url == Some(Text.EscapeAmp(link))
    ensures Assemble(c).sourceUrl == Some(link)
  {
    Text.UnescapeEscape(link);
  }

  /** The bid date reads back: split at the dashes it gives the year, the
      month and the day, the month and day in two digits or more. */
  lemma {:induction false} DateTextRoundTrip(year: nat, month: nat, day: nat)
    ensures var parts := Text.Split(DateText(year, month, day), '-');
      && |parts| == 3
      && Numerals.AllDigits(parts[0]) && Numerals.ParseNat(parts[0]) == year
      && |parts[1]| >= 2 && Numerals.AllDigits(parts[1]) && Numerals.ParseNat(parts[1]) == month
      && |parts[2]| >= 2 && Numerals.AllDigits(parts[2]) && Numerals.ParseNat(parts[2]) == day
  {
    var y, m, d := Numerals.NatText(year), Numerals.Pad2(month), Numerals.Pad2(day);
    assert DateText(year, month, day) == y + ['-'] + m + ['-'] + d;
    DigitsHaveNoDash(y);
    DigitsHaveNoDash(m);
    DigitsHaveNoDash(d);
    Text.SplitThree(y, m, d, '-');
    Numerals.ParseNatText(year);
  }

  lemma {:induction false} DigitsHaveNoDash(s: string)
    requires Numerals.AllDigits(s)
    ensures forall j :: 0 <= j < |s| ==> s[j] != '-'
  {
    forall j | 0 <= j < |s| ensures s[j] != '-' {
      assert Numerals.IsDigit(s[j]);
    }
  }

  /** Month names map to their numbers and anything else to January. */
  lemma {:induction false} MonthNumberFacts(s: string)
    ensures MonthNumber("January") == 1 && MonthNumber("December") == 12
    ensures (forall k :: 0 <= k < 12 ==> MonthNames[k] != s) ==> MonthNumber(s) == 1
  {
    assert MonthNames[0] == "January";
    assert MonthNames[11] == "December";
  }

  lemma ThreeParts(a: string, b: string, c: string)
    ensures var r := LocationParts([a, b, c]);
      && r.street == Some(Text.Strip(a))
      && r.city == Some(Text.Strip(b))
      && (|Text.Words(Text.Strip(c))| >= 2 ==>
            r.stateCode == Some(Text.Words(Text.Strip(c))[0]) && r.zip == Some(Text.Words(Text.Strip(c))[1]))
  {
    var p := [a, b, c];
    assert |p| == 3 && p[0] == a && p[1] == b && p[|p| - 1] == c;
  }

  lemma TrimmedJoin(a: string, b: string, c: string)
    requires |a| > 0 && !Text.IsSpace(a[0]) && |c| > 0 && !Text.IsSpace(c[|c| - 1])
    ensures Text.Strip(a + "," + b + "," + c) == a + "," + b + "," + c
  {
    var s := a + "," + b + "," + c;
    assert s[0] == a[0] && s[|s| - 1] == c[|c| - 1];
    Text.StripOfTrimmed(s);
  }

  /** A location written as three comma-separated parts: the street is
      the first, the city the second, and the state and zip come from the
      words of the third. */
  lemma {:induction false} LocationThreeParts(a: string, b: string, c: string)
    requires forall j :: 0 <= j < |a| ==> a[j] != ','
    requires forall j :: 0 <= j < |b| ==> b[j] != ','
    requires forall j :: 0 <= j < |c| ==> c[j] != ','
    requires |a| > 0 && !Text.IsSpace(a[0]) && |c| > 0 && !Text.IsSpace(c[|c| - 1])
    ensures ParseLocation(a + "," + b + "," + c) == LocationParts([a, b, c])
    ensures var r := ParseLocation(a + "," + b + "," + c);
      && r.street == Some(Text.Strip(a))
      && r.city == Some(Text.Strip(b))
      && (|Text.Words(Text.Strip(c))| >= 2 ==>
            r.stateCode == Some(Text.Words(Text.Strip(c))[0]) && r.zip == Some(Text.Words(Text.Strip(c))[1]))
  {
    assert ParseLocation(a + "," + b + "," + c) == LocationParts([a, b, c]) by {
      Text.SplitThree(a, b, c, ',');
      TrimmedJoin(a, b, c);
      assert a + "," + b + "," + c == a + [','] + b + [','] + c;
    }
    ThreeParts(a, b, c);
  }
}
