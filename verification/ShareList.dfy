/** The multipart `sharedWith` field: an array, a JSON text or a comma-separated text. */
module ShareList {
  import opened Base
  import opened Admission

  /** The field as it arrives; null counts as absent. */
  datatype Field = Absent | Items(items: seq<string>) | Text(text: string)

  /** What validation sees next: no value, a list, or a text that is not a list and will be refused. */
  datatype Parsed = Missing | List(entries: seq<string>) | NotAList(text: string)

  /** `s.split(c)` */
  function Split(s: string, c: char): (parts: seq<string>)
    ensures |parts| >= 1
  {
    if s == "" then [""]
    else
      var rest := Split(s[1..], c);
      if s[0] == c then [""] + rest else [[s[0]] + rest[0]] + rest[1..]
  }

  /** Trim every part and drop the empty ones. */
  function Entries(parts: seq<string>): seq<string> {
    if parts == [] then []
    else
      var entry := Trim(parts[0]);
      if |entry| > 0 then [entry] + Entries(parts[1..]) else Entries(parts[1..])
  }

  predicate OpensBracket(s: string) {
    s != "" && s[0] == '['
  }

  /** `json` is what the JSON library makes of a text that starts with a bracket: None unless it is an array. */
  function ParseField(field: Field, json: Option<seq<string>>): Parsed {
    match field
    case Absent => Missing
    case Items(items) => List(items)
    case Text(text) =>
      if text == "" then Missing
      else
        var trimmed := Trim(text);
        if OpensBracket(trimmed) then if json.Some? then List(json.value) else NotAList(trimmed)
        else List(Entries(Split(trimmed, ',')))
  }

  function Join(list: seq<string>, c: char): string {
    if list == [] then ""
    else if |list| == 1 then list[0]
    else list[0] + [c] + Join(list[1..], c)
  }

  /** No space at either end. */
  predicate Trimmed(s: string) {
    s != "" ==> !IsSpace(s[0]) && !IsSpace(s[|s| - 1])
  }

  /** Non-empty, trimmed and free of commas. */
  predicate Neat(s: string) {
    s != "" && Trimmed(s) && ',' !in s
  }

  predicate AllNeat(list: seq<string>) {
    forall i :: 0 <= i < |list| ==> Neat(list[i])
  }

  // ----- trimming -----

  lemma {:induction false} TrimLeftIsSuffix(s: string)
    ensures var r := TrimLeft(s); |r| <= |s| && r == s[|s| - |r|..] && (r != "" ==> !IsSpace(r[0]))
  {
    if s != "" && IsSpace(s[0]) {
      TrimLeftIsSuffix(s[1..]);
    }
  }

  lemma {:induction false} TrimRightIsPrefix(s: string)
    ensures var r := TrimRight(s); |r| <= |s| && r == s[..|r|] && (r != "" ==> !IsSpace(r[|r| - 1]))
  {
    if s != "" && IsSpace(s[|s| - 1]) {
      TrimRightIsPrefix(s[..|s| - 1]);
    }
  }

  // Trimming yields a trimmed piece of the text, and leaves exactly the trimmed texts alone.
  lemma TrimProps(s: string)
    ensures Trimmed(Trim(s)) && (forall c :: c in Trim(s) ==> c in s)
    ensures Trim(s) == s <==> Trimmed(s)
  {
    TrimLeftIsSuffix(s);
    TrimRightIsPrefix(TrimLeft(s));
  }

  predicate AllSpaces(s: string) {
    forall i :: 0 <= i < |s| ==> IsSpace(s[i])
  }

  lemma {:induction false} TrimLeftOf(left: string, rest: string)
    requires AllSpaces(left)
    ensures TrimLeft(left + rest) == TrimLeft(rest)
  {
    if left == "" {
      assert left + rest == rest;
    } else {
      assert (left + rest)[1..] == left[1..] + rest;
      TrimLeftOf(left[1..], rest);
    }
  }

  lemma {:induction false} TrimRightOf(rest: string, right: string)
    requires AllSpaces(right)
    ensures TrimRight(rest + right) == TrimRight(rest)
  {
    if right == "" {
      assert rest + right == rest;
    } else {
      var n := |rest + right| - 1;
      assert (rest + right)[..n] == rest + right[..|right| - 1];
      TrimRightOf(rest, right[..|right| - 1]);
    }
  }

  // Trimming takes off exactly the spaces around a trimmed text.
  lemma TrimExact(left: string, body: string, right: string)
    requires AllSpaces(left) && AllSpaces(right) && Trimmed(body)
    ensures Trim(left + body + right) == body
  {
    assert left + body + right == left + (body + right);
    TrimLeftOf(left, body + right);
    if body == "" {
      assert body + right == right + "";
      TrimLeftOf(right, "");
    } else {
      assert TrimLeft(body + right) == body + right;
      TrimRightOf(body, right);
    }
  }

  // The white space and the line ends of the language.
  lemma SpaceExact(c: char)
    ensures IsSpace(c) <==>
      c as int in {9, 10, 11, 12, 13, 32, 160, 5760, 8192, 8193, 8194, 8195, 8196, 8197, 8198, 8199, 8200, 8201, 8202,
                   8232, 8233, 8239, 8287, 12288, 65279}
  {}

  // ----- splitting -----

  lemma {:induction false} SplitHasNoSeparator(s: string, c: char)
    ensures forall i :: 0 <= i < |Split(s, c)| ==> c !in Split(s, c)[i]
  {
    if s != "" {
      SplitHasNoSeparator(s[1..], c);
    }
  }

  lemma {:induction false} SplitAbsent(s: string, c: char)
    requires c !in s
    ensures Split(s, c) == [s]
  {
    if s != "" {
      SplitAbsent(s[1..], c);
      assert [s[0]] + s[1..] == s;
    }
  }

  lemma {:induction false} SplitHead(s: string, c: char, rest: string)
    requires c !in s
    ensures Split(s + [c] + rest, c) == [s] + Split(rest, c)
  {
    if s == "" {
      assert (s + [c] + rest)[1..] == rest;
    } else {
      SplitHead(s[1..], c, rest);
      assert (s + [c] + rest)[1..] == s[1..] + [c] + rest;
      assert [s[0]] + s[1..] == s;
    }
  }

  // Splitting undoes joining, as long as no part holds the separator.
  lemma {:induction false} SplitJoin(list: seq<string>, c: char)
    requires list != [] && forall i :: 0 <= i < |list| ==> c !in list[i]
    ensures Split(Join(list, c), c) == list
  {
    if |list| == 1 {
      SplitAbsent(list[0], c);
    } else {
      SplitHead(list[0], c, Join(list[1..], c));
      SplitJoin(list[1..], c);
    }
  }

  lemma {:induction false} EntriesAreNeat(parts: seq<string>)
    requires forall i :: 0 <= i < |parts| ==> ',' !in parts[i]
    ensures AllNeat(Entries(parts))
  {
    if parts != [] {
      EntriesAreNeat(parts[1..]);
      TrimProps(parts[0]);
    }
  }

  lemma {:induction false} EntriesOfNeat(list: seq<string>)
    requires AllNeat(list)
    ensures Entries(list) == list
  {
    if list != [] {
      TrimProps(list[0]);
      EntriesOfNeat(list[1..]);
    }
  }

  lemma {:induction false} JoinEnds(list: seq<string>)
    requires list != [] && AllNeat(list)
    ensures var s := Join(list, ','); s != "" && s[0] == list[0][0] && !IsSpace(s[|s| - 1])
  {
    if |list| > 1 {
      JoinEnds(list[1..]);
      assert list[1..][0] == list[1];
    }
  }

  // ----- padding -----

  /** The strings that are not empty, in order. */
  function NonEmpty(bodies: seq<string>): seq<string> {
    if bodies == [] then []
    else if bodies[0] == "" then NonEmpty(bodies[1..])
    else [bodies[0]] + NonEmpty(bodies[1..])
  }

  lemma {:induction false} EntriesOfBodies(parts: seq<string>, bodies: seq<string>)
    requires |parts| == |bodies| && forall i :: 0 <= i < |parts| ==> Trim(parts[i]) == bodies[i]
    ensures Entries(parts) == NonEmpty(bodies)
  {
    if parts != [] {
      EntriesOfBodies(parts[1..], bodies[1..]);
    }
  }

  // Only the trimmed parts matter.
  lemma {:induction false} SameBodies(parts: seq<string>, others: seq<string>)
    requires |parts| == |others| && forall i :: 0 <= i < |parts| ==> Trim(parts[i]) == Trim(others[i])
    ensures Entries(parts) == Entries(others)
  {
    if parts != [] {
      SameBodies(parts[1..], others[1..]);
    }
  }

  lemma SpaceBefore(s: string)
    requires s != "" && IsSpace(s[0])
    ensures Entries(Split(s, ',')) == Entries(Split(s[1..], ','))
  {
    var rest := Split(s[1..], ',');
    assert Trim([s[0]] + rest[0]) == Trim(rest[0]) by {
      TrimLeftOf([s[0]], rest[0]);
    }
    SameBodies([[s[0]] + rest[0]] + rest[1..], rest);
  }

  lemma {:induction false} SplitSnoc(s: string, c: char, d: char)
    requires d != c
    ensures var parts := Split(s, c);
      Split(s + [d], c) == parts[..|parts| - 1] + [parts[|parts| - 1] + [d]]
  {
    if s == "" {
      assert s + [d] == [d];
      SplitAbsent([d], c);
    } else {
      assert (s + [d])[1..] == s[1..] + [d];
      SplitSnoc(s[1..], c, d);
      var rest := Split(s[1..], c);
      if s[0] != c && |rest| == 1 {
        assert [s[0]] + (rest[0] + [d]) == [s[0]] + rest[0] + [d];
      }
    }
  }

  lemma TrimSnoc(s: string, d: char)
    requires IsSpace(d)
    ensures Trim(s + [d]) == Trim(s)
  {
    TrimLeftIsSuffix(s);
    var t := TrimLeft(s);
    var left := s[..|s| - |t|];
    LeftIsSpaces(s);
    assert s + [d] == left + (t + [d]);
    TrimLeftOf(left, t + [d]);
    if t == "" {
      assert t + [d] == [d] + "";
      TrimLeftOf([d], "");
    } else {
      assert TrimLeft(t + [d]) == t + [d];
      TrimRightOf(t, [d]);
    }
  }

  lemma {:induction false} LeftIsSpaces(s: string)
    ensures |TrimLeft(s)| <= |s| && AllSpaces(s[..|s| - |TrimLeft(s)|])
  {
    if s != "" && IsSpace(s[0]) {
      LeftIsSpaces(s[1..]);
      var n := |s| - |TrimLeft(s)|;
      assert s[..n] == [s[0]] + s[1..][..n - 1];
    }
  }

  lemma SpaceAfter(s: string, d: char)
    requires IsSpace(d)
    ensures Entries(Split(s + [d], ',')) == Entries(Split(s, ','))
  {
    assert d != ',';
    SplitSnoc(s, ',', d);
    var parts := Split(s, ',');
    var n := |parts| - 1;
    TrimSnoc(parts[n], d);
    SameBodies(parts[..n] + [parts[n] + [d]], parts);
  }

  lemma {:induction false} TrimLeftFirst(s: string)
    ensures Entries(Split(TrimLeft(s), ',')) == Entries(Split(s, ','))
  {
    if s != "" && IsSpace(s[0]) {
      SpaceBefore(s);
      TrimLeftFirst(s[1..]);
    }
  }

  lemma {:induction false} TrimRightFirst(s: string)
    ensures Entries(Split(TrimRight(s), ',')) == Entries(Split(s, ','))
  {
    if s != "" && IsSpace(s[|s| - 1]) {
      var n := |s| - 1;
      assert s[..n] + [s[n]] == s;
      SpaceAfter(s[..n], s[n]);
      TrimRightFirst(s[..n]);
    }
  }

  // ----- main results -----

  // What the other kinds of value become: nothing, the array itself, what the JSON text holds, or a text to refuse.
  lemma OtherFields(items: seq<string>, text: string, json: Option<seq<string>>)
    ensures ParseField(Absent, json) == Missing && ParseField(Text(""), json) == Missing
    ensures ParseField(Items(items), json) == List(items)
    ensures Trim(text) != "" && Trim(text)[0] == '[' ==>
      ParseField(Text(text), json) == if json.Some? then List(json.value) else NotAList(Trim(text))
  {
    if Trim(text) != "" {
      TrimProps(text);
    }
  }

  // A comma-separated text may pad its entries with spaces and leave entries out: the list is what lies between.
  lemma PaddedListParses(padded: seq<string>, bodies: seq<string>, json: Option<seq<string>>)
    requires padded != [] && |padded| == |bodies| && Join(padded, ',') != ""
    requires forall i :: 0 <= i < |padded| ==> ',' !in padded[i] && Trim(padded[i]) == bodies[i]
    requires !OpensBracket(Trim(Join(padded, ',')))
    ensures ParseField(Text(Join(padded, ',')), json) == List(NonEmpty(bodies))
  {
    var text := Join(padded, ',');
    TrimLeftFirst(text);
    TrimRightFirst(TrimLeft(text));
    SplitJoin(padded, ',');
    EntriesOfBodies(padded, bodies);
  }

  // Whatever text arrives, the comma-separated branch yields only non-empty, trimmed, comma-free entries.
  lemma CsvEntriesAreNeat(text: string, json: Option<seq<string>>)
    requires ParseField(Text(text), json).List?
    ensures OpensBracket(Trim(text)) || AllNeat(ParseField(Text(text), json).entries)
  {
    var trimmed := Trim(text);
    SplitHasNoSeparator(trimmed, ',');
    EntriesAreNeat(Split(trimmed, ','));
  }

  // Exactly which lists survive being joined with commas and parsed, for a text that is no JSON array: the
  // non-empty lists of neat entries whose first does not open a bracket.
  lemma JoinThenParse(list: seq<string>)
    ensures ParseField(Text(Join(list, ',')), None) == List(list)
       <==> list != [] && AllNeat(list) && !OpensBracket(list[0])
  {
    var text := Join(list, ',');
    if list != [] && AllNeat(list) {
      JoinEnds(list);
      TrimProps(text);
      SplitJoin(list, ',');
      EntriesOfNeat(list);
    } else if ParseField(Text(text), None).List? {
      CsvEntriesAreNeat(text, None);
    }
  }

  // A list read from a text can be written back and read again, unless its first entry opens a bracket.
  lemma ParseIsStable(text: string, list: seq<string>)
    requires ParseField(Text(text), None) == List(list) && list != []
    ensures ParseField(Text(Join(list, ',')), None) == List(list) <==> !OpensBracket(list[0])
  {
    CsvEntriesAreNeat(text, None);
    JoinThenParse(list);
  }
}
