/**
 * The application shell: which navigation item is highlighted for a path, the link that
 * switches a session between chat and voice, and the items of the bottom bar.
 */
module AppShell {
  import opened Wrappers
  import opened JsText

  datatype NavItem = NavItem(href: string, title: string)

  const HOME := "/app/home"

  const NAV_ITEMS: seq<NavItem> := [
    NavItem(HOME, "Home"),
    NavItem("/app/sessions", "Sessions"),
    NavItem("/app/results", "Results"),
    NavItem("/app/history", "History"),
    NavItem("/app/settings", "Settings")
  ]

  const SESSION := "/app/session"
  const CHAT_PAGE := SESSION + "/chat"
  const VOICE_PAGE := SESSION + "/voice"

  /** `isActive(href)`. */
  predicate IsActive(path: string, href: string) {
    if href == HOME then path == HOME || path == "/app" else StartsWith(path, href)
  }

  /** Home is highlighted on `/app/home` and on `/app` itself, and on nothing else. */
  lemma HomeActive(path: string)
    ensures IsActive(path, HOME) <==> path == HOME || path == "/app"
  {
  }

  /** Any other item is highlighted on its own path and every path below it. */
  lemma OtherActive(path: string, href: string, x: string)
    requires href != HOME
    ensures IsActive(path, href) <==> href <= path
    ensures IsActive(href + x, href)
  {
  }

  /** A chat session does not highlight the sessions list. */
  lemma ChatIsNotSessions(x: string)
    ensures !IsActive(CHAT_PAGE + x, NAV_ITEMS[1].href)
  {
    var p := CHAT_PAGE + x;
    assert p[12] == '/' && NAV_ITEMS[1].href[12] == 's';
  }

  /** The mode-switch link: present on chat and voice session pages, pointing at the other
      mode by replacing the first `/chat` or `/voice`. */
  function SwitchLink(path: string): Option<string> {
    if Contains(path, CHAT_PAGE) then Some(ReplaceFirst(path, "/chat", "/voice"))
    else if Contains(path, VOICE_PAGE) then Some(ReplaceFirst(path, "/voice", "/chat"))
    else None
  }

  /** The bar appears exactly on paths holding either session page. */
  lemma SwitchShown(path: string)
    ensures SwitchLink(path).Some? <==> Contains(path, CHAT_PAGE) || Contains(path, VOICE_PAGE)
  {
  }

  /** `indexOf` finds `sub` at `k` when it is there and at no earlier position. */
  lemma IndexOfAt(p: string, sub: string, k: nat)
    requires k + |sub| <= |p| && sub <= p[k..]
    requires forall j :: 0 <= j < k ==> !(sub <= p[j..])
    ensures IndexOf(p, sub) == Some(k)
  {
    var r := IndexOf(p, sub);
    assert r.Some?;
    assert r.value <= k;
  }

  /** `/chat` first occurs right after `/app/session`. */
  lemma FirstChat(page: string, x: string)
    requires page == CHAT_PAGE
    ensures IndexOf(page + x, "/chat") == Some(12)
  {
    var p := page + x;
    forall j | 0 <= j < 12
      ensures !("/chat" <= p[j..])
    {
      if j == 0 || j == 4 {
        assert p[j + 1] != 'c';
      } else {
        assert p[j] != '/';
      }
    }
    assert p[12..17] == "/chat";
    IndexOfAt(p, "/chat", 12);
  }

  /** `/voice` first occurs right after `/app/session`. */
  lemma FirstVoice(page: string, x: string)
    requires page == VOICE_PAGE
    ensures IndexOf(page + x, "/voice") == Some(12)
  {
    var p := page + x;
    forall j | 0 <= j < 12
      ensures !("/voice" <= p[j..])
    {
      if j == 0 || j == 4 {
        assert p[j + 1] != 'v';
      } else {
        assert p[j] != '/';
      }
    }
    assert p[12..18] == "/voice";
    IndexOfAt(p, "/voice", 12);
  }

  /** A page under a prefix, taken apart around its mode. */
  lemma PageParts(a: string, b: string, x: string)
    ensures var p := a + b + x; p[..|a|] == a && p[|a| + |b|..] == x
  {
  }

  /** From a chat page, the link goes to the same session's voice page. */
  lemma ChatToVoice(x: string)
    ensures SwitchLink(CHAT_PAGE + x) == Some(VOICE_PAGE + x)
  {
    var p := CHAT_PAGE + x;
    assert CHAT_PAGE <= p;
    FirstChat(CHAT_PAGE, x);
    PageParts(SESSION, "/chat", x);
  }

  /** From a voice page that holds no chat page, the link goes back to the chat page. */
  lemma VoiceToChat(x: string)
    requires !Contains(VOICE_PAGE + x, CHAT_PAGE)
    ensures SwitchLink(VOICE_PAGE + x) == Some(CHAT_PAGE + x)
  {
    var p := VOICE_PAGE + x;
    assert VOICE_PAGE <= p;
    FirstVoice(VOICE_PAGE, x);
    PageParts(SESSION, "/voice", x);
  }

  /** The voice page itself holds no chat page. */
  lemma VoicePageHasNoChat(v: string, c: string)
    requires v == VOICE_PAGE && c == CHAT_PAGE
    ensures !Contains(v, c)
  {
    ContainsIff(v, c);
    forall j | 0 <= j <= |v|
      ensures !(c <= v[j..])
    {
      if j == 0 {
        assert v[13] != c[13];
      } else if j == 1 {
        assert v[1] != c[0];
      }
    }
  }

  /** Switching twice from a chat page comes back to it. */
  lemma SwitchRoundTrip(x: string)
    requires !Contains(VOICE_PAGE + x, CHAT_PAGE)
    ensures SwitchLink(SwitchLink(CHAT_PAGE + x).value) == Some(CHAT_PAGE + x)
  {
    ChatToVoice(x);
    VoiceToChat(x);
  }

  /** On the chat page itself the two links are inverse. */
  lemma ChatPageRoundTrip(c: string, v: string)
    requires c == CHAT_PAGE && v == VOICE_PAGE
    ensures SwitchLink(c) == Some(v)
    ensures SwitchLink(v) == Some(c)
  {
    VoicePageHasNoChat(v, c);
    assert c + "" == c && v + "" == v;
    ChatToVoice("");
    VoiceToChat("");
  }

  /** The bottom bar: the first four items, in order; settings is left out. */
  function BottomBar(): (r: seq<NavItem>)
    ensures |r| == 4 && forall i :: 0 <= i < 4 ==> r[i] == NAV_ITEMS[i]
    ensures NAV_ITEMS[4] !in r
  {
    NAV_ITEMS[..4]
  }
}
