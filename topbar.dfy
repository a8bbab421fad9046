/**
 * The top bar of `src/ui/topbar_view.py`: where the avatar menu opens, the guarded
 * logout, the user-name menu entry and the avatar fallback. Geometry is in integer
 * pixels, a window's edges are those `QRect` reports (`right()` and `bottom()` are the
 * last pixel inside). Translated texts are parameters holding what `get_text` returns.
 */
module Topbar {
  import opened Wrappers
  import opened Json
  import Login

  datatype Point = Point(x: int, y: int)
  datatype Rect = Rect(left: int, top: int, right: int, bottom: int)

  /**
   * `showAvatarMenu`'s position: right-aligned with the avatar button, moved in from the
   * window's right edge and then from its left edge; below the button unless the menu
   * would pass the window's bottom, then above it.
   */
  method MenuPosition(button: Point, buttonWidth: int, buttonHeight: int, window: Rect, menuWidth: int, menuHeight: int)
    returns (pos: Point)
    ensures var aligned := button.x + buttonWidth - menuWidth;
      && pos.x >= window.left
      && (menuWidth <= window.right - window.left ==> pos.x + menuWidth <= window.right)
      && (menuWidth > window.right - window.left ==> pos.x == window.left)
      && (window.left <= aligned && aligned + menuWidth <= window.right ==> pos.x == aligned)
      && (aligned + menuWidth > window.right && menuWidth <= window.right - window.left ==> pos.x == window.right - menuWidth)
      && (aligned < window.left ==> pos.x == window.left)
    ensures pos.y == if button.y + buttonHeight + menuHeight > window.bottom then button.y - menuHeight else button.y + buttonHeight
  {
    var x := button.x + buttonWidth - menuWidth;
    if x + menuWidth > window.right {
      x := window.right - menuWidth;
    }
    if x < window.left {
      x := window.left;
    }
    var y := button.y + buttonHeight;
    if y + menuHeight > window.bottom {
      y := button.y - menuHeight;
    }
    pos := Point(x, y);
  }

  /** What `on_avatar_loaded` is given. */
  datatype AvatarImage =
    | NoImage                             // None
    | ImageOf(picture: nat, isNull: bool)  // a QImage
    | PixmapOf(picture: nat, isNull: bool) // a QPixmap
    | OtherObject                          // anything else

  /** The avatar button's icon. */
  datatype Icon = Unset | DefaultAvatar | RoundedAvatar(picture: nat)

  /** The user-name text `load_user_info` sets and the avatar URL it starts loading, if any. */
  datatype UserInfoOutcome = UserInfoOutcome(username: string, avatarUrl: Option<Value>)

  /** `user_info['images'][0]['url']` for a truthy `images`, None where that raises. */
  function FirstImageUrl(images: Value): Option<Value>
  {
    if images.List? && |images.items| > 0 && images.items[0].Obj? && "url" in images.items[0].fields
    then Some(images.items[0].fields["url"]) else None
  }

  /**
   * The text `QAction.setText` shows for a display name: a string as it is, and None as the
   * empty text (PyQt5 passes None as a null QString); any other value raises TypeError.
   */
  function NameText(v: Value): (r: Option<string>)
    ensures r.Some? <==> v.Str? || v.Null?
    ensures v.Str? ==> r == Some(v.s)
    ensures v.Null? ==> r == Some("")
  {
    match v
    case Str(s) => Some(s)
    case Null => Some("")
    case _ => None
  }

  /** The shown text of a user dict's display name, None where reading or showing it raises. */
  function ShownName(user: Value): Option<string>
  {
    if user.Obj? && "display_name" in user.fields then NameText(user.fields["display_name"]) else None
  }

  /**
   * `load_user_info` of `src/ui/topbar_view.py` for the preloaded `sp.user_info` (None
   * when the client has none): its display name (a null one shown empty), and the first
   * image's URL when it has images. Whatever raises on the way, a missing name, a name
   * that is neither a string nor null, or images without a URL, leaves the unknown-user
   * text and loads no avatar.
   */
  function UserInfoResult(info: Option<Value>, unknownUser: string): (r: UserInfoOutcome)
    ensures r.username == unknownUser || (info.Some? && ShownName(info.value) == Some(r.username))
    ensures info.None? || ShownName(info.value).None? ==> r == UserInfoOutcome(unknownUser, None)
    ensures r.avatarUrl.Some? ==>
      && info.Some? && info.value.Obj? && ShownName(info.value) == Some(r.username)
      && r.avatarUrl == FirstImageUrl(Get(info.value.fields, "images", Null))
    ensures info.Some? && ShownName(info.value).Some? && !Truthy(Get(info.value.fields, "images", Null)) ==>
      r == UserInfoOutcome(ShownName(info.value).value, None)
  {
    if info.None? || ShownName(info.value).None? then
      UserInfoOutcome(unknownUser, None)
    else
      var name := ShownName(info.value).value;
      var images := Get(info.value.fields, "images", Null);
      if !Truthy(images) then UserInfoOutcome(name, None)
      else if FirstImageUrl(images).Some? then UserInfoOutcome(name, FirstImageUrl(images))
      else UserInfoOutcome(unknownUser, None)
  }

  /** A named user without images keeps the name; a first image with a URL loads that avatar. */
  lemma UserInfoMeaning(name: string, fields: map<string, Value>, url: Value, unknownUser: string)
    requires fields.Keys == {"display_name"} && fields["display_name"] == Str(name)
    ensures UserInfoResult(Some(Obj(fields)), unknownUser) == UserInfoOutcome(name, None)
    ensures UserInfoResult(Some(Obj(fields["images" := List([Obj(map["url" := url])])])), unknownUser) == UserInfoOutcome(name, Some(url))
    ensures UserInfoResult(Some(Obj(fields["images" := Str("x")])), unknownUser) == UserInfoOutcome(unknownUser, None)
    ensures UserInfoResult(None, unknownUser) == UserInfoOutcome(unknownUser, None)
    ensures UserInfoResult(Some(Obj(map["display_name" := Null, "images" := List([Obj(map["url" := url])])])), unknownUser)
         == UserInfoOutcome("", Some(url))
  {
    var nullName := map["display_name" := Null, "images" := List([Obj(map["url" := url])])];
    assert ShownName(Obj(nullName)) == Some("");
    assert Get(nullName, "images", Null) == List([Obj(map["url" := url])]);
    var withImages := fields["images" := List([Obj(map["url" := url])])];
    assert "display_name" in withImages && withImages["display_name"] == Str(name);
    assert Get(withImages, "images", Null) == List([Obj(map["url" := url])]);
    var withText := fields["images" := Str("x")];
    assert "display_name" in withText && withText["display_name"] == Str(name);
    assert Get(withText, "images", Null) == Str("x");
    assert Get(fields, "images", Null) == Null;
  }

  /** The text of the user-name entry while it is still loading, as created. */
  const LoadingPlaceholder := "加载中..."

  class TopbarView {
    /** `is_logging_out`. */
    var isLoggingOut: bool
    /** `api_connected`; this view never clears it. */
    var apiConnected: bool
    /** The text of `username_action`. */
    var usernameText: string
    /** The avatar button's icon, and the ids `_on_avatar_load_failed` was called with. */
    var avatar: Icon
    var avatarFailures: seq<string>
    /** The avatar URLs handed to an image loader. */
    var avatarLoads: seq<Value>
    /** Whether the default avatar file exists. */
    const defaultAvatarExists: bool
    /** Whether a login window is shown and the main window's closing scheduled. */
    var loginShown: bool
    const store: Login.TokenStore

    constructor(store: Login.TokenStore, defaultAvatarExists: bool, loadingText: string)
      ensures this.store == store && this.defaultAvatarExists == defaultAvatarExists
      ensures !isLoggingOut && apiConnected && usernameText == loadingText
      ensures avatar == Unset && avatarFailures == [] && avatarLoads == [] && !loginShown
    {
      this.store := store;
      this.defaultAvatarExists := defaultAvatarExists;
      isLoggingOut := false;
      apiConnected := true;
      usernameText := loadingText;
      avatar := Unset;
      avatarFailures := [];
      avatarLoads := [];
      loginShown := false;
    }

    /**
     * The user-name part of `update_ui_texts`: without an API connection the unknown-user
     * text; a name still showing the Chinese placeholder gets the translated loading text;
     * any other name stays.
     */
    method UpdateUiTexts(unknownUser: string, loading: string)
      modifies this`usernameText
      ensures !apiConnected ==> usernameText == unknownUser
      ensures apiConnected && old(usernameText) == LoadingPlaceholder ==> usernameText == loading
      ensures apiConnected && old(usernameText) != LoadingPlaceholder ==> usernameText == old(usernameText)
    {
      if !apiConnected {
        usernameText := unknownUser;
      } else if usernameText == LoadingPlaceholder {
        usernameText := loading;
      }
    }

    /** `load_user_info`. */
    method LoadUserInfo(info: Option<Value>, unknownUser: string)
      modifies this`usernameText, this`avatarLoads
      ensures var r := UserInfoResult(info, unknownUser);
        usernameText == r.username && avatarLoads == old(avatarLoads) + (if r.avatarUrl.Some? then [r.avatarUrl.value] else [])
    {
      var r := UserInfoResult(info, unknownUser);
      usernameText := r.username;
      if r.avatarUrl.Some? {
        avatarLoads := avatarLoads + [r.avatarUrl.value];
      }
    }

    /** `_on_avatar_load_failed`: the default avatar when its file exists. */
    method OnAvatarLoadFailed(id: string)
      modifies this`avatar, this`avatarFailures
      ensures avatarFailures == old(avatarFailures) + [id]
      ensures avatar == if defaultAvatarExists then DefaultAvatar else old(avatar)
    {
      avatarFailures := avatarFailures + [id];
      if defaultAvatarExists {
        avatar := DefaultAvatar;
      }
    }

    /**
     * `on_avatar_loaded`: a QImage or QPixmap that is not null becomes the rounded avatar;
     * None, a null image or an object of another type takes the fallback, with the track
     * id or 'unknown'.
     */
    method OnAvatarLoaded(image: AvatarImage, trackId: Option<string>)
      modifies this`avatar, this`avatarFailures
      ensures var usable := (image.ImageOf? || image.PixmapOf?) && !image.isNull;
        && (usable ==> avatar == RoundedAvatar(image.picture) && avatarFailures == old(avatarFailures))
        && (!usable ==> avatarFailures == old(avatarFailures) + [if trackId.Some? && trackId.value != "" then trackId.value else "unknown"]
                        && avatar == (if defaultAvatarExists then DefaultAvatar else old(avatar)))
    {
      var id := if trackId.Some? && trackId.value != "" then trackId.value else "unknown";
      if image.NoImage? || ((image.ImageOf? || image.PixmapOf?) && image.isNull) {
        OnAvatarLoadFailed(id);
        return;
      }
      if image.OtherObject? {
        OnAvatarLoadFailed(id);
        return;
      }
      avatar := RoundedAvatar(image.picture);
    }

    /**
     * `logout`: ignored while a logout runs; otherwise it marks one running, deletes the
     * token file, and opens the login window and schedules the main window's closing.
     * A failure (`removeOk` false: deleting the file raised; `loginOk` false: opening the
     * login window raised) clears the mark again so the user can retry.
     */
    method Logout(removeOk: bool, loginOk: bool)
      modifies this`isLoggingOut, this`loginShown, store`tokenFile
      ensures old(isLoggingOut) ==> isLoggingOut && loginShown == old(loginShown) && store.tokenFile == old(store.tokenFile)
      ensures !old(isLoggingOut) ==>
        && isLoggingOut == (removeOk && loginOk)
        && loginShown == (if removeOk && loginOk then true else old(loginShown))
        && store.tokenFile == (if removeOk then Login.Absent else old(store.tokenFile))
    {
      if isLoggingOut {
        return;
      }
      isLoggingOut := true;
      if !removeOk {
        isLoggingOut := false;
        return;
      }
      store.tokenFile := Login.Absent;
      if !loginOk {
        isLoggingOut := false;
        return;
      }
      loginShown := true;
    }
  }
}

/**
 * The older top bar of `views/topbar_view.py`: the same menu placement and logout guard,
 * with the user fetched through `sp.current_user()` and the connection flag it sets.
 */
module LegacyTopbar {
  import opened Wrappers
  import opened Json
  import Topbar

  /**
   * `load_user_info` of `views/topbar_view.py`: the API's user (None when the call
   * raises) with a string display name and an `images` entry connects; the avatar loads
   * from the first image when there is one. Anything that raises on the way leaves the
   * unknown-user text and the flag cleared.
   */
  function FetchResult(user: Option<Value>, unknownUser: string): (r: (bool, Topbar.UserInfoOutcome))
    ensures r.0 <==> (user.Some? && Topbar.ShownName(user.value).Some? && "images" in user.value.fields
      && (Truthy(user.value.fields["images"]) ==> Topbar.FirstImageUrl(user.value.fields["images"]).Some?))
    ensures !r.0 ==> r.1 == Topbar.UserInfoOutcome(unknownUser, None)
    ensures r.0 ==> r.1.username == Topbar.ShownName(user.value).value
    ensures r.0 ==> r.1.avatarUrl == if Truthy(user.value.fields["images"]) then Topbar.FirstImageUrl(user.value.fields["images"]) else None
  {
    if user.None? || Topbar.ShownName(user.value).None? || "images" !in user.value.fields then
      (false, Topbar.UserInfoOutcome(unknownUser, None))
    else
      var name := Topbar.ShownName(user.value).value;
      var images := user.value.fields["images"];
      if !Truthy(images) then (true, Topbar.UserInfoOutcome(name, None))
      else if Topbar.FirstImageUrl(images).Some? then (true, Topbar.UserInfoOutcome(name, Topbar.FirstImageUrl(images)))
      else (false, Topbar.UserInfoOutcome(unknownUser, None))
  }

  class LegacyTopbarView {
    var isLoggingOut: bool
    var apiConnected: bool
    var usernameText: string
    var avatarLoads: seq<Value>
    var loginShown: bool
    /** Whether `data/token.json` exists. */
    var tokenFilePresent: bool

    constructor(loadingText: string, tokenFilePresent: bool)
      ensures !isLoggingOut && apiConnected && usernameText == loadingText && avatarLoads == [] && !loginShown
      ensures this.tokenFilePresent == tokenFilePresent
    {
      isLoggingOut := false;
      apiConnected := true;
      usernameText := loadingText;
      avatarLoads := [];
      loginShown := false;
      this.tokenFilePresent := tokenFilePresent;
    }

    /** `load_user_info`: `api_connected` is true exactly when the user loaded without raising. */
    method LoadUserInfo(user: Option<Value>, unknownUser: string)
      modifies this`usernameText, this`apiConnected, this`avatarLoads
      ensures var r := FetchResult(user, unknownUser);
        && apiConnected == r.0 && usernameText == r.1.username
        && avatarLoads == old(avatarLoads) + (if r.1.avatarUrl.Some? then [r.1.avatarUrl.value] else [])
    {
      var r := FetchResult(user, unknownUser);
      apiConnected := r.0;
      usernameText := r.1.username;
      if r.1.avatarUrl.Some? {
        avatarLoads := avatarLoads + [r.1.avatarUrl.value];
      }
    }

    /** The user-name part of `update_ui_texts`, as in the newer top bar. */
    method UpdateUiTexts(unknownUser: string, loading: string)
      modifies this`usernameText
      ensures !apiConnected ==> usernameText == unknownUser
      ensures apiConnected ==> usernameText == if old(usernameText) == Topbar.LoadingPlaceholder then loading else old(usernameText)
    {
      if !apiConnected {
        usernameText := unknownUser;
      } else if usernameText == Topbar.LoadingPlaceholder {
        usernameText := loading;
      }
    }

    /**
     * `logout`: guarded by `is_logging_out`; the token file is deleted when it exists (a
     * missing one is only logged), then the login window opens. A failure (`removeOk`
     * false: deleting raised; `loginOk` false: opening the login window raised) clears the
     * guard again.
     */
    method Logout(removeOk: bool, loginOk: bool)
      modifies this`isLoggingOut, this`loginShown, this`tokenFilePresent
      ensures old(isLoggingOut) ==> isLoggingOut && loginShown == old(loginShown) && tokenFilePresent == old(tokenFilePresent)
      ensures !old(isLoggingOut) ==>
        && isLoggingOut == (removeOk && loginOk)
        && loginShown == (if removeOk && loginOk then true else old(loginShown))
        && tokenFilePresent == (old(tokenFilePresent) && !removeOk)
    {
      if isLoggingOut {
        return;
      }
      isLoggingOut := true;
      if !removeOk {
        isLoggingOut := false;
        return;
      }
      tokenFilePresent := false;
      if !loginOk {
        isLoggingOut := false;
        return;
      }
      loginShown := true;
    }
  }

  /** A failed fetch always shows the unknown user and disconnects; a connected fetch shows the display name. */
  lemma FetchMeaning(name: string, unknownUser: string)
    ensures FetchResult(None, unknownUser) == (false, Topbar.UserInfoOutcome(unknownUser, None))
    ensures FetchResult(Some(Obj(map["display_name" := Str(name), "images" := List([])])), unknownUser) == (true, Topbar.UserInfoOutcome(name, None))
    ensures FetchResult(Some(Obj(map["display_name" := Str(name)])), unknownUser).0 == false
    ensures FetchResult(Some(Obj(map["display_name" := Null, "images" := List([])])), unknownUser) == (true, Topbar.UserInfoOutcome("", None))
  {
    var m := map["display_name" := Str(name), "images" := List([])];
    assert "display_name" in m && "images" in m;
    var n := map["display_name" := Null, "images" := List([])];
    assert Topbar.ShownName(Obj(n)) == Some("") && "images" in n;
  }
}
