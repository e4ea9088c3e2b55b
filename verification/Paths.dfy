/** Object-store keys: `StorageService.buildPath` and why two objects never share a key. */
module Paths {
  import opened Base

  datatype StorageContext = Messages | Avatars | GroupIcons | Thumbnails

  predicate IsHex(c: char) {
    '0' <= c <= '9' || 'a' <= c <= 'f' || 'A' <= c <= 'F'
  }

  predicate IsHyphenAt(i: int) {
    i == 8 || i == 13 || i == 18 || i == 23
  }

  /** The canonical UUID v1-v5 pattern, case-insensitive. */
  predicate IsUuid(s: string) {
    && |s| == 36
    && (forall i :: 0 <= i < 36 ==> if IsHyphenAt(i) then s[i] == '-' else IsHex(s[i]))
    && '1' <= s[14] <= '5'
    && s[19] in {'8', '9', 'a', 'b', 'A', 'B'}
  }

  /** None stands for the error thrown on a malformed owner or object id. */
  function BuildPath(context: StorageContext, ownerId: UserId, objectId: MediaId): Option<Path> {
    if !IsUuid(ownerId) || !IsUuid(objectId) then None
    else
      match context
      case Messages => Some("messages/" + ownerId + "/" + objectId + ".bin")
      case Avatars => Some("avatars/" + ownerId + "/" + objectId)
      case GroupIcons => Some("group_icons/" + ownerId + "/" + objectId)
      case Thumbnails => Some("thumbnails/" + objectId + ".bin")
  }

  // A key starts with a letter of its family and holds owner and object at fixed places.
  lemma PathParts(context: StorageContext, ownerId: UserId, objectId: MediaId)
    requires IsUuid(ownerId) && IsUuid(objectId)
    ensures var p := BuildPath(context, ownerId, objectId).value;
            match context
            case Messages => p[0] == 'm' && |p| == 86 && p[9..45] == ownerId && p[46..82] == objectId
            case Avatars => p[0] == 'a' && |p| == 81 && p[8..44] == ownerId && p[45..81] == objectId
            case GroupIcons => p[0] == 'g' && |p| == 85 && p[12..48] == ownerId && p[49..85] == objectId
            case Thumbnails => p[0] == 't' && |p| == 51 && p[11..47] == objectId
  {
    var p := BuildPath(context, ownerId, objectId).value;
    match context
    case Messages =>
      assert p == ("messages/" + ownerId + "/") + objectId + ".bin";
      assert p[9..45] == ownerId;
      assert p[46..82] == objectId;
    case Avatars =>
      assert p == ("avatars/" + ownerId + "/") + objectId;
      assert p[8..44] == ownerId;
      assert p[45..81] == objectId;
    case GroupIcons =>
      assert p == ("group_icons/" + ownerId + "/") + objectId;
      assert p[12..48] == ownerId;
      assert p[49..85] == objectId;
    case Thumbnails =>
      assert p[11..47] == objectId;
  }

  // Two successful calls give the same key only for the same object: the same family and object id,
  // and, outside the thumbnails, the same owner. The four families never overlap.
  lemma BuildPathInjective(c1: StorageContext, o1: UserId, i1: MediaId, c2: StorageContext, o2: UserId, i2: MediaId)
    requires BuildPath(c1, o1, i1).Some? && BuildPath(c2, o2, i2).Some?
    ensures BuildPath(c1, o1, i1) == BuildPath(c2, o2, i2)
       <==> c1 == c2 && i1 == i2 && (c1 == Thumbnails || o1 == o2)
  {
    PathParts(c1, o1, i1);
    PathParts(c2, o2, i2);
  }

  /** The object id written in a key. */
  function ObjectIdOf(p: Path): MediaId {
    if |p| == 86 && p[0] == 'm' then p[46..82]
    else if |p| == 81 && p[0] == 'a' then p[45..81]
    else if |p| == 85 && p[0] == 'g' then p[49..85]
    else if |p| == 51 && p[0] == 't' then p[11..47]
    else ""
  }

  // Every key names its object, so keys of different objects differ.
  lemma PathNamesObject(context: StorageContext, ownerId: UserId, objectId: MediaId)
    requires BuildPath(context, ownerId, objectId).Some?
    ensures ObjectIdOf(BuildPath(context, ownerId, objectId).value) == objectId
  {
    PathParts(context, ownerId, objectId);
  }
}
