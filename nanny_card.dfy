/** The nanny card (`NannyCard`) of the family dashboard: an avatar (photo or
    initials), the name, an experience line, optional texts, and the contact block,
    which shows phone and email only to subscribers. Number fields may be missing
    (`None`); a string field counts as shown when it is truthy. */
module NannyCard {
  import opened Common
  import opened Text

  /** The fields of one nanny entry the card reads. */
  datatype Nanny = Nanny(
    id: int,
    name: Option<string>,
    imageUrl: Option<string>,
    experienceYears: Option<int>,
    bio: Option<string>,
    schedule: Option<string>,
    minMonths: Option<int>,
    phone: Option<string>,
    email: Option<string>)

  /** The first character of every piece: `parts.map(n => n[0]).join('')`, where an
      empty piece gives `undefined` and so contributes nothing to the join. */
  function FirstLetters(parts: seq<string>): (r: string)
    ensures |r| <= |parts|
  {
    if parts == [] then []
    else (if parts[0] == [] then [] else [parts[0][0]]) + FirstLetters(parts[1..])
  }

  /** Reference definition: the characters of `s` that are not a space and either open
      `s` (when `atStart`) or follow a space. */
  function WordStarts(s: string, atStart: bool): string
  {
    if s == [] then []
    else if s[0] == ' ' then WordStarts(s[1..], true)
    else (if atStart then [s[0]] else []) + WordStarts(s[1..], false)
  }

  /** Taking the first letter of every piece between spaces is taking the first
      character of every word: both at the start of `s` and after its first piece. */
  lemma {:induction false} FirstLettersAreWordStarts(s: string)
    ensures FirstLetters(Split(s, ' ')) == WordStarts(s, true)
    ensures FirstLetters(Split(s, ' ')[1..]) == WordStarts(s, false)
  {
    if s != [] {
      var rest := Split(s[1..], ' ');
      FirstLettersAreWordStarts(s[1..]);
      if s[0] == ' ' {
        assert Split(s, ' ') == [[]] + rest;
        assert ([[]] + rest)[1..] == rest;
      } else {
        var parts := [[s[0]] + rest[0]] + rest[1..];
        assert Split(s, ' ') == parts;
        assert parts[1..] == rest[1..];
      }
    }
  }

  /** There is no word start exactly when `s` holds nothing but spaces. */
  lemma {:induction false} NoWordStartsIffSpaces(s: string)
    ensures WordStarts(s, true) == [] <==> forall i :: 0 <= i < |s| ==> s[i] == ' '
  {
    if s != [] {
      NoWordStartsIffSpaces(s[1..]);
      if s[0] == ' ' {
        assert forall i :: 1 <= i < |s| ==> s[i] == s[1..][i - 1];
      }
    }
  }

  /** `s.slice(0, 2)` */
  function TakeTwo(s: string): (r: string)
    ensures r <= s && |r| == (if |s| < 2 then |s| else 2)
  {
    if |s| < 2 then s else s[..2]
  }

  /** `initials`: "?" for a missing or empty name; otherwise the upper-cased first
      characters of its first two words, so never more than two characters, and empty
      exactly when the name is nothing but spaces. */
  function Initials(name: Option<string>): (r: string)
    ensures !Truthy(name) ==> r == "?"
    ensures Truthy(name) ==> |r| <= 2
    ensures Truthy(name) ==>
      var starts := WordStarts(name.value, true);
      |r| == (if |starts| < 2 then |starts| else 2) &&
      forall i :: 0 <= i < |r| ==> r[i] == UpperChar(starts[i])
    ensures Truthy(name) ==> (r == [] <==> forall i :: 0 <= i < |name.value| ==> name.value[i] == ' ')
  {
    if !Truthy(name) then "?"
    else
      FirstLettersAreWordStarts(name.value);
      NoWordStartsIffSpaces(name.value);
      Upper(TakeTwo(FirstLetters(Split(name.value, ' '))))
  }

  /** The avatar: the photo when its URL is truthy, otherwise the initials. */
  datatype Avatar = Photo(url: string) | InitialsBadge(text: string)

  function AvatarOf(n: Nanny): (a: Avatar)
    ensures a.Photo? <==> Truthy(n.imageUrl)
    ensures a.InitialsBadge? ==> a.text == Initials(n.name)
  {
    if Truthy(n.imageUrl) then Photo(n.imageUrl.value) else InitialsBadge(Initials(n.name))
  }

  /** The name fallback used by the card and the nanny dashboard. */
  const NannyWord: string := "Ni\U{00F1}era"

  /** `nanny.nanny_name || 'Niñera'` */
  function DisplayName(name: Option<string>): (r: string)
    ensures Truthy(name) ==> r == name.value
    ensures !Truthy(name) ==> r == NannyWord
    ensures r != []
  {
    if Truthy(name) then name.value else NannyWord
  }

  /** `n === 1 ? singular : plural` */
  function Plural(n: int, singular: string, plural: string): (w: string)
    ensures singular != plural ==> (w == singular <==> n == 1)
    ensures w == singular || w == plural
  {
    if n == 1 then singular else plural
  }

  const YearWord: string := "a\U{00F1}o"
  const YearsWord: string := "a\U{00F1}os"

  /** The experience line: shown only for a positive number of years, with "año" for
      exactly one and "años" otherwise. */
  function ExperienceLine(years: Option<int>): (line: Option<string>)
    ensures line.Some? <==> years.Some? && years.value > 0
    ensures line.Some? ==>
      line.value == "\U{00B7} " + IntToString(years.value) + " " + Plural(years.value, YearWord, YearsWord) + " exp."
  {
    if years.Some? && years.value > 0 then
      Some("\U{00B7} " + IntToString(years.value) + " " + Plural(years.value, YearWord, YearsWord) + " exp.")
    else None
  }

  /** What `{n && <element/>}` renders for a number field: nothing for a missing
      value, the text "0" for zero (React prints a falsy number), else the element. */
  datatype Gated = Nothing | ZeroText | Element(text: string)

  function GateNumber(n: Option<int>, element: string): (g: Gated)
    ensures n.None? <==> g.Nothing?
    ensures g.ZeroText? <==> n == Some(0)
    ensures g.Element? ==> g.text == element
  {
    if n.None? then Nothing else if n.value == 0 then ZeroText else Element(element)
  }

  const MinimumWord: string := "M\U{00ED}nimo "

  /** The minimum-months line: "Mínimo N mes" for exactly one month, "meses"
      otherwise; a zero prints "0" instead, a missing value nothing. */
  function MinMonthsLine(months: Option<int>): (g: Gated)
    ensures g.Element? <==> months.Some? && months.value != 0
    ensures g.Element? ==> g.text == MinimumWord + IntToString(months.value) + " " + Plural(months.value, "mes", "meses")
    ensures g.ZeroText? <==> months == Some(0)
  {
    GateNumber(months, if months.Some? then MinimumWord + IntToString(months.value) + " " + Plural(months.value, "mes", "meses") else "")
  }

  /** The contact block: phone and email (each when truthy) for subscribers, the
      "Ver Contacto" button for everybody else. */
  datatype Contact = Details(phone: Option<string>, email: Option<string>) | ContactButton

  function ContactOf(n: Nanny, isSubscribed: bool): (c: Contact)
    ensures c.Details? <==> isSubscribed
    ensures c.Details? ==> (c.phone.Some? <==> Truthy(n.phone)) && (c.email.Some? <==> Truthy(n.email))
    ensures c.Details? && c.phone.Some? ==> c.phone == n.phone
    ensures c.Details? && c.email.Some? ==> c.email == n.email
  {
    if !isSubscribed then ContactButton
    else Details(if Truthy(n.phone) then n.phone else None, if Truthy(n.email) then n.email else None)
  }
}
