/** The signed-in user's entry at the foot of the sidebar (components/nav-user.tsx):
    what it shows for the session the authentication client reports. Only the
    text and the avatar source are modelled; the dropdown items are layout. */
module NavUser {
  import opened JsValues
  import opened Auth

  /** What the avatar shows: the image source and the fallback initial. */
  datatype Avatar = Avatar(src: string, fallback: string)

  /** `NavUser()`: nothing while the session is loading; otherwise the menu
      trigger and the menu label, each with an avatar, a name and the email.
      The label's name follows a `{" "}` text node, so it starts with a space. */
  datatype NavView =
    | NotRendered
    | Menu(triggerAvatar: Avatar, triggerName: string, labelAvatar: Avatar, labelName: string, email: string)

  /** The base of the generated avatar images. */
  const AvatarService := "https://avatar.vercel.sh/"

  /** `c.toUpperCase()` for one character, on the ASCII letters. */
  function AsciiUpper(c: char): (u: char)
    ensures 'a' <= c <= 'z' ==> 'A' <= u <= 'Z' && u as int - 'A' as int == c as int - 'a' as int
    ensures !('a' <= c <= 'z') ==> u == c
  {
    if 'a' <= c <= 'z' then (c as int - 'a' as int + 'A' as int) as char else c
  }

  /** `s.charAt(0).toUpperCase()`: the empty string for an empty `s`. */
  function Initial(s: string): (r: string)
    ensures s == "" <==> r == ""
    ensures s != "" ==> |r| == 1 && r[0] == AsciiUpper(s[0])
  {
    if s == "" then "" else [AsciiUpper(s[0])]
  }

  /** `s.split("a")[0]`: the text before the first 'a'. */
  function BeforeFirstA(s: string): (r: string)
    ensures |r| <= |s| && r == s[..|r|]
    ensures 'a' !in r
    ensures |r| == |s| || s[|r|] == 'a'
    decreases |s|
  {
    if s == [] then []
    else if s[0] == 'a' then []
    else
      var rest := BeforeFirstA(s[1..]);
      assert s[1..][..|rest|] == s[1..|rest| + 1];
      [s[0]] + rest
  }

  /** The three properties above pin `BeforeFirstA` down: any prefix free of
      'a' and followed by 'a' (or by nothing) is the text before the first 'a'. */
  lemma {:induction false} BeforeFirstAUnique(s: string, p: string)
    requires |p| <= |s| && p == s[..|p|]
    requires 'a' !in p
    requires |p| == |s| || s[|p|] == 'a'
    ensures BeforeFirstA(s) == p
    decreases |s|
  {
    if s != [] && s[0] != 'a' {
      assert p != [];
      assert p[0] == s[0];
      assert p[1..] == s[1..][..|p| - 1];
      BeforeFirstAUnique(s[1..], p[1..]);
    } else if s != [] {
      assert p == [];
    }
  }

  /** The name shown: the user's name when it is not empty, else the email
      up to its first 'a'. */
  function DisplayName(u: User): (r: string)
    ensures u.name != "" ==> r == u.name
    ensures u.name == "" ==> |r| <= |u.email| && r == u.email[..|r|] && 'a' !in r && (r == u.email || u.email[|r|] == 'a')
  {
    if u.name != "" then u.name else BeforeFirstA(u.email)
  }

  /** The avatar: the user's image when one is set (an empty string included),
      else the generated image for the email; the initial of the name, or of
      the email when the name is empty. */
  function AvatarOf(u: User): (a: Avatar)
    ensures u.image.Some? ==> a.src == u.image.value
    ensures u.image.None? ==> a.src == AvatarService + u.email
    ensures u.name != "" ==> |a.fallback| == 1 && a.fallback[0] == AsciiUpper(u.name[0])
    ensures u.name == "" ==> a.fallback == Initial(u.email)
  {
    Avatar(if u.image.Some? then u.image.value else AvatarService + u.email,
           Initial(if u.name != "" then u.name else u.email))
  }

  /** `NavUser()` for the state of `useSession()`. With no session every
      optional chain yields `undefined`: React renders nothing for it, and the
      template string spells it out. */
  function View(isPending: bool, session: Option<Session>): (v: NavView)
    ensures isPending <==> v == NotRendered
    ensures !isPending && session.Some? ==>
      v == Menu(AvatarOf(session.value.user), DisplayName(session.value.user),
                AvatarOf(session.value.user), " " + DisplayName(session.value.user), session.value.user.email)
    ensures !isPending && session.None? ==>
      v == Menu(Avatar(AvatarService + "undefined", ""), "", Avatar(AvatarService + "undefined", ""), " ", "")
    ensures v.Menu? ==> v.triggerAvatar == v.labelAvatar && v.labelName == " " + v.triggerName
  {
    if isPending then NotRendered
    else if session.None? then
      var avatar := Avatar(AvatarService + "undefined", "");
      Menu(avatar, "", avatar, " ", "")
    else
      var u := session.value.user;
      Menu(AvatarOf(u), DisplayName(u), AvatarOf(u), " " + DisplayName(u), u.email)
  }

  /** With an empty name, an email holding no 'a' is shown whole, and one
      holding an 'a' is cut just before the first 'a'. */
  lemma {:induction false} EmailNameCut(u: User, local: string, rest: string)
    requires u.name == "" && u.email == local + "a" + rest && 'a' !in local
    ensures DisplayName(u) == local
  {
    assert u.email[..|local|] == local;
    assert u.email[|local|] == 'a';
    BeforeFirstAUnique(u.email, local);
  }

  lemma {:induction false} EmailWithoutAShownWhole(u: User)
    requires u.name == "" && 'a' !in u.email
    ensures DisplayName(u) == u.email
  {
    assert u.email[..|u.email|] == u.email;
    BeforeFirstAUnique(u.email, u.email);
  }
}
