/** Texts with a form: UUIDs, object keys and declared types, told by their parts. */
module Texts {
  import opened Base
  import opened Paths
  import opened Admission
  import opened ShareList
  import opened Protocol

  // ----- keys -----

  lemma {:induction false} JoinSplit(s: string, c: char)
    ensures Join(Split(s, c), c) == s
  {
    if s != "" {
      JoinSplit(s[1..], c);
      var rest := Split(s[1..], c);
      if s[0] == c {
        assert Join([""] + rest, c) == "" + [c] + Join(rest, c);
      } else if |rest| == 1 {
        assert Join([[s[0]] + rest[0]], c) == [s[0]] + rest[0];
      } else {
        assert ([[s[0]] + rest[0]] + rest[1..])[1..] == rest[1..];
        assert [s[0]] + rest[0] + [c] + Join(rest[1..], c) == [s[0]] + (rest[0] + [c] + Join(rest[1..], c));
      }
    }
  }

  lemma UuidHasNoSlash(s: string)
    requires IsUuid(s)
    ensures '/' !in s
  {}

  lemma SplitThree(a: string, b: string, d: string, c: char)
    requires c !in a && c !in b && c !in d
    ensures Split(a + [c] + b + [c] + d, c) == [a, b, d]
  {
    assert a + [c] + b + [c] + d == a + [c] + (b + [c] + d);
    SplitHead(a, c, b + [c] + d);
    SplitHead(b, c, d);
    SplitAbsent(d, c);
  }

  // A key is its family, its owner and its object: three segments, two for a thumbnail.
  lemma PathSegments(owner: UserId, objectId: MediaId)
    requires IsUuid(owner) && IsUuid(objectId)
    ensures Split(BuildPath(Messages, owner, objectId).value, '/') == ["messages", owner, objectId + ".bin"]
    ensures Split(BuildPath(Avatars, owner, objectId).value, '/') == ["avatars", owner, objectId]
    ensures Split(BuildPath(GroupIcons, owner, objectId).value, '/') == ["group_icons", owner, objectId]
    ensures Split(BuildPath(Thumbnails, owner, objectId).value, '/') == ["thumbnails", objectId + ".bin"]
  {
    UuidHasNoSlash(owner);
    UuidHasNoSlash(objectId);
    hide IsUuid;
    assert '/' !in ".bin";
    SplitThree("messages", owner, objectId + ".bin", '/');
    assert BuildPath(Messages, owner, objectId).value == "messages" + ['/'] + owner + ['/'] + (objectId + ".bin");
    SplitThree("avatars", owner, objectId, '/');
    assert BuildPath(Avatars, owner, objectId).value == "avatars" + ['/'] + owner + ['/'] + objectId;
    SplitThree("group_icons", owner, objectId, '/');
    assert BuildPath(GroupIcons, owner, objectId).value == "group_icons" + ['/'] + owner + ['/'] + objectId;
    SplitHead("thumbnails", '/', objectId + ".bin");
    SplitAbsent(objectId + ".bin", '/');
    assert BuildPath(Thumbnails, owner, objectId).value == "thumbnails" + ['/'] + (objectId + ".bin");
  }

  // Where the blob of each context and its thumbnail go.
  lemma KeysOfContexts(owner: UserId, id: MediaId)
    requires IsUuid(owner) && IsUuid(id)
    ensures Split(BlobPath(Message, owner, id), '/') == ["messages", owner, id + ".bin"]
    ensures Split(BlobPath(Avatar, owner, id), '/') == ["avatars", owner, id]
    ensures Split(BlobPath(GroupIcon, owner, id), '/') == ["group_icons", owner, id]
    ensures Split(ThumbPath(owner, id), '/') == ["thumbnails", id + ".bin"]
  {
    hide IsUuid, BuildPath, Split;
    PathSegments(owner, id);
  }

  // ----- UUIDs -----

  predicate AllHex(s: string) {
    forall i :: 0 <= i < |s| ==> s[i] in "0123456789abcdefABCDEF"
  }

  /** Groups of 8, 4, 4, 4 and 12 hex digits, a version from 1 to 5 and a variant. */
  predicate UuidGroups(parts: seq<string>) {
    && |parts| == 5 && |parts[0]| == 8 && |parts[1]| == 4 && |parts[2]| == 4 && |parts[3]| == 4 && |parts[4]| == 12
    && AllHex(parts[0]) && AllHex(parts[1]) && AllHex(parts[2]) && AllHex(parts[3]) && AllHex(parts[4])
    && parts[2][0] in "12345" && parts[3][0] in "89abAB"
  }

  function Hyphened(a: string, b: string, c: string, d: string, e: string): string {
    a + ['-'] + (b + ['-'] + (c + ['-'] + (d + ['-'] + e)))
  }

  lemma SplitFive(a: string, b: string, c: string, d: string, e: string)
    requires '-' !in a && '-' !in b && '-' !in c && '-' !in d && '-' !in e
    ensures Split(Hyphened(a, b, c, d, e), '-') == [a, b, c, d, e]
  {
    SplitHead(a, '-', b + ['-'] + (c + ['-'] + (d + ['-'] + e)));
    SplitHead(b, '-', c + ['-'] + (d + ['-'] + e));
    SplitHead(c, '-', d + ['-'] + e);
    SplitHead(d, '-', e);
    SplitAbsent(e, '-');
  }

  lemma HexHasNoHyphen(s: string)
    ensures AllHex(s) <==> forall i :: 0 <= i < |s| ==> IsHex(s[i])
    ensures AllHex(s) ==> '-' !in s
  {
    forall i | 0 <= i < |s| ensures s[i] in "0123456789abcdefABCDEF" <==> IsHex(s[i]) {
      HexDigit(s[i]);
    }
  }

  lemma HexDigit(c: char)
    ensures c in "0123456789abcdefABCDEF" <==> IsHex(c)
  {}

  // Where the parts of a hyphened text are.
  lemma HyphenedAt(a: string, b: string, c: string, d: string, e: string)
    requires |a| == 8 && |b| == |c| == |d| == 4 && |e| == 12
    ensures var s := Hyphened(a, b, c, d, e);
      && |s| == 36 && s[8] == '-' && s[13] == '-' && s[18] == '-' && s[23] == '-'
      && (forall i :: 0 <= i < 8 ==> s[i] == a[i]) && (forall i :: 9 <= i < 13 ==> s[i] == b[i - 9])
      && (forall i :: 14 <= i < 18 ==> s[i] == c[i - 14]) && (forall i :: 19 <= i < 23 ==> s[i] == d[i - 19])
      && (forall i :: 24 <= i < 36 ==> s[i] == e[i - 24])
  {}

  lemma GroupsAreUuid(a: string, b: string, c: string, d: string, e: string)
    requires UuidGroups([a, b, c, d, e])
    ensures IsUuid(Hyphened(a, b, c, d, e))
  {
    var parts, s := [a, b, c, d, e], Hyphened(a, b, c, d, e);
    assert parts[0] == a && parts[1] == b && parts[2] == c && parts[3] == d && parts[4] == e;
    HexHasNoHyphen(a);
    HexHasNoHyphen(b);
    HexHasNoHyphen(c);
    HexHasNoHyphen(d);
    HexHasNoHyphen(e);
    hide AllHex, IsHex, Hyphened;
    HyphenedAt(a, b, c, d, e);
  }

  lemma VersionAndVariant(s: string)
    requires IsUuid(s)
    ensures s[14] in "12345" && s[19] in "89abAB"
  {
    assert "12345"[s[14] as int - 49] == s[14];
  }

  lemma UuidHasGroups(s: string)
    requires IsUuid(s)
    ensures UuidGroups([s[..8], s[9..13], s[14..18], s[19..23], s[24..]])
  {
    GroupIsHex(s, 0, 8);
    GroupIsHex(s, 9, 13);
    GroupIsHex(s, 14, 18);
    GroupIsHex(s, 19, 23);
    GroupIsHex(s, 24, 36);
    VersionAndVariant(s);
    hide AllHex, IsHex, IsUuid, IsHyphenAt, Hyphened;
    assert s[14..18][0] == s[14] && s[19..23][0] == s[19];
    assert s[0..8] == s[..8] && s[24..36] == s[24..];
  }

  lemma UuidIsHyphened(s: string)
    requires IsUuid(s)
    ensures s == Hyphened(s[..8], s[9..13], s[14..18], s[19..23], s[24..])
  {
    assert s[8] == '-' && s[13] == '-' && s[18] == '-' && s[23] == '-';
    hide IsHex, IsUuid, IsHyphenAt, Hyphened;
    assert s[0..8] == s[..8];
    PeelGroup(s, 0, 8);
    PeelGroup(s, 9, 13);
    PeelGroup(s, 14, 18);
    PeelGroup(s, 19, 23);
    assert s[0..] == s;
    HyphensAssociate(s[..8], s[9..13], s[14..18], s[19..23], s[24..]);
  }

  lemma PeelGroup(s: string, i: nat, j: nat)
    requires i < j < |s| && s[j] == '-'
    ensures s[i..] == s[i..j] + (['-'] + s[j + 1..])
  {}

  lemma HyphensAssociate(a: string, b: string, c: string, d: string, e: string)
    ensures Hyphened(a, b, c, d, e) == a + (['-'] + (b + (['-'] + (c + (['-'] + (d + (['-'] + e)))))))
  {}

  lemma GroupIsHex(s: string, i: nat, j: nat)
    requires IsUuid(s) && i <= j <= 36 && forall k :: i <= k < j ==> !IsHyphenAt(k)
    ensures AllHex(s[i..j])
  {
    forall k | 0 <= k < j - i ensures s[i..j][k] in "0123456789abcdefABCDEF" {
      HexDigit(s[i + k]);
    }
  }

  lemma UuidSplits(s: string)
    requires IsUuid(s)
    ensures UuidGroups(Split(s, '-'))
  {
    UuidHasGroups(s);
    UuidIsHyphened(s);
    hide IsUuid, Hyphened;
    var a, b, c, d, e := s[..8], s[9..13], s[14..18], s[19..23], s[24..];
    var groups := [a, b, c, d, e];
    assert groups[0] == a && groups[1] == b && groups[2] == c && groups[3] == d && groups[4] == e;
    HexHasNoHyphen(a);
    HexHasNoHyphen(b);
    HexHasNoHyphen(c);
    HexHasNoHyphen(d);
    HexHasNoHyphen(e);
    hide AllHex;
    SplitFive(a, b, c, d, e);
  }

  lemma SplitsUuid(s: string)
    requires UuidGroups(Split(s, '-'))
    ensures IsUuid(s)
  {
    hide IsUuid, AllHex, Hyphened;
    var parts := Split(s, '-');
    JoinSplit(s, '-');
    JoinFive(parts);
    assert parts == [parts[0], parts[1], parts[2], parts[3], parts[4]];
    GroupsAreUuid(parts[0], parts[1], parts[2], parts[3], parts[4]);
  }

  // A UUID is its five groups.
  lemma UuidExact(s: string)
    ensures IsUuid(s) <==> UuidGroups(Split(s, '-'))
  {
    hide IsUuid, UuidGroups;
    if IsUuid(s) {
      UuidSplits(s);
    } else if UuidGroups(Split(s, '-')) {
      SplitsUuid(s);
    }
  }

  lemma JoinFive(parts: seq<string>)
    requires |parts| == 5
    ensures Join(parts, '-') == Hyphened(parts[0], parts[1], parts[2], parts[3], parts[4])
  {
    assert parts[1..][1..] == parts[2..] && parts[2..][1..] == parts[3..] && parts[3..][1..] == parts[4..];
    assert Join(parts[4..], '-') == parts[4];
    assert Join(parts[3..], '-') == parts[3] + ['-'] + parts[4];
    assert Join(parts[2..], '-') == parts[2] + ['-'] + Join(parts[3..], '-');
    assert Join(parts[1..], '-') == parts[1] + ['-'] + Join(parts[2..], '-');
  }

  // ----- declared types -----

  // A declared type may be padded, in any case, and carry parameters: it is checked as its plain form.
  lemma DressedType(mime: string, left: string, body: string, right: string, tail: string)
    requires Plain(mime) && mime != "" && |body| == |mime|
    requires forall i :: 0 <= i < |mime| ==>
      body[i] == mime[i] || ('a' <= mime[i] <= 'z' && body[i] as int == mime[i] as int - 32)
    requires AllSpaces(left) && AllSpaces(right) && (tail == "" || tail[0] == ';')
    ensures Normalise(left + body + right + tail) == mime
    ensures forall buffer :: MagicOk(buffer, left + body + right + tail) <==> MagicOk(buffer, mime)
  {
    var dressed := left + body + right;
    assert forall i :: 0 <= i < |dressed| ==> dressed[i] != ';';
    BeforeTail(dressed, tail);
    assert Trimmed(body) by {
      assert PlainChar(mime[0]) && PlainChar(mime[|mime| - 1]);
    }
    TrimExact(left, body, right);
    assert Lower(body) == mime by {
      forall i | 0 <= i < |mime| ensures LowerChar(body[i]) == mime[i] {
        assert PlainChar(mime[i]);
      }
    }
    NormalisePlain(mime);
  }

  lemma {:induction false} BeforeTail(s: string, tail: string)
    requires (forall i :: 0 <= i < |s| ==> s[i] != ';') && (tail == "" || tail[0] == ';')
    ensures Before(s + tail, ';') == s
  {
    if s == "" {
      assert s + tail == tail;
    } else {
      assert (s + tail)[1..] == s[1..] + tail;
      BeforeTail(s[1..], tail);
    }
  }
}
