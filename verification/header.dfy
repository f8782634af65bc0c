/**
 * The site header: whether the page is an auth page, the unread badge, the
 * notification sound, the unread-rooms dropdown and logout.
 */
module Header {
  import opened Wrappers
  import Strings
  import Cookies
  import UserSlice
  import Login

  const AuthPages: set<string> := {"/login", "/signup", "/create-post"}
  const MemberFallback := "회원"
  const ManyUnread := "9+"

  /** `isAuthPage`: the login, signup and create-post pages get a bare header. */
  function IsAuthPage(pathname: string): (b: bool)
    ensures b <==> pathname == "/login" || pathname == "/signup" || pathname == "/create-post"
    ensures b <==> pathname in AuthPages
  {
    pathname == "/login" || pathname == "/signup" || pathname == "/create-post"
  }

  /** The badge over the bell: none for no unread messages, the count up to 9, then "9+". */
  function BadgeText(unreadCount: int): (t: Option<string>)
    ensures t.None? <==> unreadCount <= 0
    ensures 0 < unreadCount <= 9 ==> t == Some([Strings.DigitChar(unreadCount)])
    ensures unreadCount > 9 ==> t == Some(ManyUnread)
    ensures t.Some? ==> |t.value| <= 2
  {
    if unreadCount <= 0 then None
    else if unreadCount > 9 then Some(ManyUnread)
    else Some(Strings.NatToString(unreadCount))
  }

  /** `nickname || '회원'`. */
  function DisplayNickname(nickname: Option<string>): (name: string)
    ensures name != ""
    ensures nickname.Some? && nickname.value != "" ==> name == nickname.value
    ensures !(nickname.Some? && nickname.value != "") ==> name == MemberFallback
  {
    if nickname.Some? && nickname.value != "" then nickname.value else MemberFallback
  }

  /** The bell and the my-page link are shown to everyone but ADMIN. */
  function ShowMemberLinks(role: Option<string>): (b: bool)
    ensures b <==> role != Some(Login.AdminRole)
  {
    role != Some(Login.AdminRole)
  }

  /** What a click on an unread room does. */
  datatype RoomClick = OpenBoard(boardId: int) | MissingBoard

  class HeaderView {
    var isDropdownOpen: bool
    /** The unread count seen at the previous render. */
    var prevUnreadCount: int

    constructor(unreadCount: int)
      ensures !isDropdownOpen && prevUnreadCount == unreadCount
    {
      isDropdownOpen := false;
      prevUnreadCount := unreadCount;
    }

    /** The unread-count effect: the sound plays exactly on a rise, and the count is remembered. */
    method OnUnreadCountChange(unreadCount: int) returns (play: bool)
      modifies this
      ensures play <==> unreadCount > old(prevUnreadCount)
      ensures prevUnreadCount == unreadCount
      ensures isDropdownOpen == old(isDropdownOpen)
    {
      play := unreadCount > prevUnreadCount;
      prevUnreadCount := unreadCount;
    }

    /** `handleNotificationClick`: unread rooms are fetched only when opening; the dropdown flips. */
    method OnBellClick() returns (fetchRooms: bool)
      modifies this
      ensures fetchRooms <==> !old(isDropdownOpen)
      ensures isDropdownOpen == !old(isDropdownOpen)
      ensures prevUnreadCount == old(prevUnreadCount)
    {
      fetchRooms := !isDropdownOpen;
      isDropdownOpen := !isDropdownOpen;
    }

    /** A click on a room: with a board id (non-zero) go there and close; otherwise only an alert. */
    method OnRoomClick(boardId: Option<int>) returns (r: RoomClick)
      modifies this
      ensures r.OpenBoard? <==> boardId.Some? && boardId.value != 0
      ensures r.OpenBoard? ==> r.boardId == boardId.value && !isDropdownOpen
      ensures r.MissingBoard? ==> isDropdownOpen == old(isDropdownOpen)
      ensures prevUnreadCount == old(prevUnreadCount)
    {
      if boardId.Some? && boardId.value != 0 {
        isDropdownOpen := false;
        return OpenBoard(boardId.value);
      }
      return MissingBoard;
    }
  }

  /** Two clicks on the bell close the dropdown again and fetch at most once. */
  method BellTwice(h: HeaderView) returns (first: bool, second: bool)
    modifies h
    ensures h.isDropdownOpen == old(h.isDropdownOpen)
    ensures first != second
    ensures first <==> !old(h.isDropdownOpen)
  {
    first := h.OnBellClick();
    second := h.OnBellClick();
  }

  /** The same count seen twice plays the sound at most once. */
  method SameCountTwice(h: HeaderView, unreadCount: int) returns (first: bool, second: bool)
    modifies h
    ensures !second
    ensures first <==> unreadCount > old(h.prevUnreadCount)
  {
    first := h.OnUnreadCountChange(unreadCount);
    second := h.OnUnreadCountChange(unreadCount);
  }

  /**
   * `handleLogout`: whether or not the server call succeeded, the store is
   * logged out (dropping the token cookie) and the app goes home.
   */
  method HandleLogout(serverOk: bool, store: UserSlice.UserStore, jar: Cookies.CookieJar) returns (path: string)
    modifies store, jar
    ensures store.State() == UserSlice.Anonymous
    ensures jar.entries == old(jar.entries) - {Cookies.AccessToken}
    ensures path == Login.HomePath
  {
    store.Logout(jar);
    path := Login.HomePath;
  }
}
