/**
 * The dashboard's user menu (apps/web/src/components/dashboard/user-nav.tsx):
 * what it renders for the current user query, the avatar's fallback
 * initials, and where a logout sends the browser.
 */
module UserNav {
  import opened Wrappers
  import opened Text
  import ApiClient
  import AuthStore

  /** `n[0]` joined into a string: the first character, or nothing for an empty word (`undefined` joins as ""). */
  function FirstLetter(word: string): (r: string)
    ensures |r| <= 1 && r <= word
    ensures |r| == 1 <==> word != ""
  {
    if word == "" then "" else [word[0]]
  }

  /** `words.map((n) => n[0]).join('')`. */
  function FirstLetters(words: seq<string>): (r: string)
    ensures |r| <= |words|
  {
    if |words| == 0 then "" else FirstLetter(words[0]) + FirstLetters(words[1..])
  }

  /** `username.split(' ').map((n) => n[0]).join('').toUpperCase().slice(0, 2)`. */
  function Initials(username: string): string
  {
    Prefix(ToUpper(FirstLetters(Split(username, ' '))), 2)
  }

  /** The letters picked are exactly the first letters of the non-empty words, in order. */
  lemma {:induction false} FirstLettersOfWords(words: seq<string>)
    ensures |FirstLetters(words)| == |NonEmpty(words)|
    ensures forall i :: 0 <= i < |NonEmpty(words)| ==> FirstLetters(words)[i] == NonEmpty(words)[i][0]
    decreases |words|
  {
    if |words| > 0 {
      FirstLettersOfWords(words[1..]);
      if words[0] != "" {
        var rest := NonEmpty(words[1..]);
        assert NonEmpty(words) == [words[0]] + rest;
        assert forall i :: 1 <= i < |NonEmpty(words)| ==> NonEmpty(words)[i] == rest[i - 1];
      }
    }
  }

  /** The non-empty words, in order. */
  function NonEmpty(words: seq<string>): (r: seq<string>)
    ensures forall i :: 0 <= i < |r| ==> r[i] != ""
  {
    if |words| == 0 then []
    else if words[0] == "" then NonEmpty(words[1..])
    else [words[0]] + NonEmpty(words[1..])
  }

  /**
   * The initials are at most two characters: the upper-cased first letters
   * of the first two words that are not empty (doubled, leading or trailing
   * spaces give empty words, which contribute nothing).
   */
  lemma InitialsOfWords(username: string)
    ensures var ws := NonEmpty(Split(username, ' '));
      && |Initials(username)| == (if |ws| < 2 then |ws| else 2)
      && forall i :: 0 <= i < |Initials(username)| ==> Initials(username)[i] == UpperChar(ws[i][0])
  {
    FirstLettersOfWords(Split(username, ' '));
  }

  /** A one-word name gives its first letter, upper-cased. */
  lemma OneWordInitial(username: string)
    requires username != "" && ' ' !in username
    ensures Initials(username) == [UpperChar(username[0])]
  {
    SplitFree(username, ' ');
    assert FirstLetters([username]) == [username[0]] + FirstLetters([]);
  }

  /** What the component renders. */
  datatype View =
    /** The user query is loading: a spinner. */
    | Spinner
    /** No user: nothing. */
    | Nothing
    /** The menu, with the fallback initials, the name and the e-mail. */
    | Menu(initials: string, username: string, email: string)

  /** The render: loading wins over everything, then a missing user renders nothing. */
  function Render(userLoading: bool, user: Option<(string, string)>): (v: View)
    ensures v.Spinner? <==> userLoading
    ensures v.Nothing? <==> !userLoading && user.None?
    ensures v.Menu? ==> v.username == user.value.0 && v.email == user.value.1 && v.initials == Initials(user.value.0)
  {
    if userLoading then Spinner
    else if user.None? then Nothing
    else Menu(Initials(user.value.0), user.value.0, user.value.1)
  }

  /**
   * `handleLogout`: awaits the store's `logout`, then goes to the login page.
   * The store's `logout` settles in the initial state whatever the service
   * does and never rejects, so the catch branch is never taken: the browser
   * always reaches `/login`, signed out and with the session keys removed.
   */
  method HandleLogout(store: AuthStore.AuthStore) returns (route: string)
    modifies store, store.service.api.storage
    ensures route == "/login"
    ensures store.state == AuthStore.InitialState && !store.state.isAuthenticated && store.state.user.None?
    ensures store.service.api.storage != null ==>
      store.service.api.storage.items == ApiClient.Cleared(old(store.service.api.storage.items))
  {
    var _ := store.Logout();
    route := "/login";
  }
}
