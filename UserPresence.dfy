/**
 * The presence strip (apps/web/src/components/collaboration/user-presence.tsx):
 * the first three users as avatars, the rest summed up in a "+n" badge.
 */
module UserPresence {
  import opened Wrappers
  import opened Text

  datatype Status = Active | Idle | Offline

  datatype PresenceUser = PresenceUser(id: string, name: string, avatar: Option<string>, color: string, status: Status)

  /** How many avatars are shown. */
  const MaxShown := 3

  /** What one avatar shows: the image when the user has a non-empty avatar URL, otherwise two letters. */
  datatype Face = Image(src: string) | Letters(text: string)

  /** `user.avatar ? <img> : user.name.slice(0, 2).toUpperCase()`. */
  function FaceOf(u: PresenceUser): (f: Face)
    ensures f.Image? <==> u.avatar.Some? && u.avatar.value != ""
    ensures f.Image? ==> f.src == u.avatar.value
    ensures f.Letters? ==> |f.text| == (if |u.name| < 2 then |u.name| else 2)
    ensures f.Letters? ==> forall i :: 0 <= i < |f.text| ==> f.text[i] == UpperChar(u.name[i])
  {
    if u.avatar.Some? && u.avatar.value != "" then Image(u.avatar.value)
    else Letters(ToUpper(Prefix(u.name, 2)))
  }

  /** The rendered strip: the avatars shown and the overflow badge, if any. */
  datatype Strip = Strip(shown: seq<PresenceUser>, faces: seq<Face>, overflow: Option<nat>)

  /** `users.slice(0, 3)` and `users.length > 3 && +{users.length - 3}`. */
  function Render(users: seq<PresenceUser>): (s: Strip)
    ensures s.shown <= users && |s.faces| == |s.shown|
    ensures |s.shown| == if |users| < MaxShown then |users| else MaxShown
    ensures forall i :: 0 <= i < |s.shown| ==> s.faces[i] == FaceOf(s.shown[i])
    ensures s.overflow.Some? <==> |users| > MaxShown
    ensures s.overflow.Some? ==> s.overflow.value > 0
    // every user is accounted for, as an avatar or in the badge's count
    ensures |s.shown| + (if s.overflow.Some? then s.overflow.value else 0) == |users|
  {
    var shown := Prefix(users, MaxShown);
    Strip(shown, seq(|shown|, i requires 0 <= i < |shown| => FaceOf(shown[i])),
          if |users| > MaxShown then Some(|users| - MaxShown) else None)
  }
}
