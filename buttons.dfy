/** The sidebar buttons of zulipterminal/ui_tools/buttons.py: the state each
    button keeps (caption, count, cached display, click handlers), what its
    constructor derives (stream colour key, palette entry, user recipients)
    and how `update_count` moves it. The urwid library underneath is not
    modelled: the display is a `Render.Display` value and the signal registry
    of a button is the ordered list of the handlers connected to its click. */
module Buttons {
  import opened Render

  const HOME_CAPTION: string := "All messages"
  const PM_CAPTION: string := "Private messages"
  const DEFAULT_THEME: string := "default"

  /** The callbacks a button connects to its click signal. The first four
      belong to the controller, the last two to the view's write box. */
  datatype Handler =
    | ShowAllMessages
    | ShowAllPM
    | NarrowToStream
    | NarrowToUser
    | StreamBoxView
    | PrivateBoxView

  predicate OnController(h: Handler) {
    h.ShowAllMessages? || h.ShowAllPM? || h.NarrowToStream? || h.NarrowToUser?
  }

  predicate OnWriteBox(h: Handler) {
    h.StreamBoxView? || h.PrivateBoxView?
  }

  /** An urwid palette entry: name, foreground, background, monochrome
      setting, high-colour foreground, high-colour background. */
  datatype PaletteEntry = PaletteEntry(
    name: string, foreground: string, background: string,
    mono: string, foregroundHigh: string, backgroundHigh: string)

  /** The `[name, stream_id, color]` list a stream button is built from. */
  datatype StreamProperties = StreamProperties(name: string, streamId: int, color: string)

  /** The user dictionary a user button is built from. */
  datatype UserRecord = UserRecord(fullName: string, email: string, userId: int)

  /** The colour key of a stream: the raw colour (`#rrggbb`) cut down to its
      first two characters and the characters at positions 3 and 5. */
  function ColorKey(color: string): (key: string)
    requires |color| >= 6
    ensures |key| == 4
    ensures key[..2] == color[..2] && key[2] == color[3] && key[3] == color[5]
  {
    color[..2] + [color[3]] + [color[5]]
  }

  /** The two hex digits of channel `i` (0 red, 1 green, 2 blue) of `#rrggbb`. */
  function Channel(color: string, i: nat): string
    requires |color| == 7 && i < 3
  {
    color[1 + 2 * i .. 3 + 2 * i]
  }

  /** On a `#rrggbb` colour the key is `#rgb`: the hash, then the leading hex
      digit of the red, green and blue channels, in that order. */
  lemma ColorKeyTakesChannelLeads(color: string)
    requires |color| == 7 && color[0] == '#'
    ensures ColorKey(color) == ['#', Channel(color, 0)[0], Channel(color, 1)[0], Channel(color, 2)[0]]
  {
    var key := ColorKey(color);
    assert key[0] == color[..2][0] && key[1] == color[..2][1];
  }

  lemma ColorKeyExample()
    ensures ColorKey("#1a2b3c") == "#123"
  {
    ColorKeyTakesChannelLeads("#1a2b3c");
  }

  /** The palette entry a stream button registers for its colour key:
      the key as foreground on black in high-colour mode. */
  function StreamPaletteEntry(key: string): PaletteEntry
  {
    PaletteEntry(key, "", "", "", key, "black")
  }

  /** `view.palette['default'].append(...)`: exactly one entry is added, at
      the end of the default theme; earlier entries and the other themes stay
      as they were. */
  function RegisterStreamColor(palette: map<string, seq<PaletteEntry>>, key: string)
    : (p: map<string, seq<PaletteEntry>>)
    requires DEFAULT_THEME in palette
    ensures p.Keys == palette.Keys
    ensures |p[DEFAULT_THEME]| == |palette[DEFAULT_THEME]| + 1
    ensures p[DEFAULT_THEME][..|palette[DEFAULT_THEME]|] == palette[DEFAULT_THEME]
    ensures p[DEFAULT_THEME][|palette[DEFAULT_THEME]|] == StreamPaletteEntry(key)
    ensures forall t :: t in palette && t != DEFAULT_THEME ==> p[t] == palette[t]
  {
    palette[DEFAULT_THEME := palette[DEFAULT_THEME] + [StreamPaletteEntry(key)]]
  }

  /** `frozenset({user_id, view.model.user_id})`: the peer and the viewer,
      one element when the two are the same user. */
  function Recipients(peer: int, own: int): (r: set<int>)
    ensures forall x :: x in r <==> x == peer || x == own
    ensures |r| == if peer == own then 1 else 2
  {
    {peer, own}
  }

  lemma RecipientsSymmetric(a: int, b: int)
    ensures Recipients(a, b) == Recipients(b, a)
  {
  }

  /** The handlers a button of each kind connects to its click, in the order
      they are connected: a controller callback first, then, for streams and
      users, the write-box callback that retargets the compose box. */
  function ClickHandlers(kind: Kind): (r: seq<Handler>)
    ensures |r| == if kind.Home? || kind.PM? then 1 else 2
    ensures OnController(r[0]) && forall i :: 1 <= i < |r| ==> OnWriteBox(r[i])
    ensures kind.Home? ==> r == [ShowAllMessages]
    ensures kind.PM? ==> r == [ShowAllPM]
    ensures kind.Stream? ==> r == [NarrowToStream, StreamBoxView]
    ensures kind.User? ==> r == [NarrowToUser, PrivateBoxView]
  {
    match kind
    case Home => [ShowAllMessages]
    case PM => [ShowAllPM]
    case Stream(_, _) => [NarrowToStream, StreamBoxView]
    case User(_, _, _, _) => [NarrowToUser, PrivateBoxView]
  }

  /** The observable state of a counted button. */
  datatype ButtonState = ButtonState(
    kind: Kind, caption: string, count: int, display: Display, handlers: seq<Handler>)

  /** The cached display is the one the current count calls for. */
  predicate Consistent(s: ButtonState) {
    s.display == Widget(s.kind, s.caption, s.count)
  }

  /** The state after `update_count(n)`: the count and the display are
      overwritten, identity, caption and handlers are untouched, and the
      badge now reads `n` (zero when `n` is not positive). */
  function Updated(s: ButtonState, n: int): (r: ButtonState)
    ensures r.kind == s.kind && r.caption == s.caption && r.handlers == s.handlers
    ensures r.count == n && Consistent(r)
    ensures ReadBadge(r.display.segments[2].text) == if n <= 0 then 0 else n
  {
    WidgetShowsCount(s.kind, s.caption, n);
    s.(count := n, display := Widget(s.kind, s.caption, n))
  }

  /** Updating twice with the same count is updating once. */
  lemma UpdatedIdempotent(s: ButtonState, n: int)
    ensures Updated(Updated(s, n), n) == Updated(s, n)
  {
  }

  /** Only the last of two updates is visible. */
  lemma UpdatedLastWins(s: ButtonState, m: int, n: int)
    ensures Updated(Updated(s, m), n) == Updated(s, n)
  {
  }

  /** The part of the hosting view a button reaches: the palette store it
      registers stream colours in, and the viewer's own user id
      (`view.model.user_id`). */
  class View {
    var palette: map<string, seq<PaletteEntry>>
    const ownUserId: int

    constructor (palette: map<string, seq<PaletteEntry>>, ownUserId: int)
      ensures this.palette == palette && this.ownUserId == ownUserId
    {
      this.palette := palette;
      this.ownUserId := ownUserId;
    }
  }

  /** `HomeButton`, `PMButton`, `StreamButton` and `UserButton`: one class,
      one named constructor per kind. */
  class Button {
    const kind: Kind
    const caption: string
    var count: int
    var w: Display                 // the cached display, urwid's `_w`
    var handlers: seq<Handler>     // the click handlers, in connection order

    ghost predicate Valid()
      reads this
    {
      Consistent(State())
    }

    ghost function State(): ButtonState
      reads this
    {
      ButtonState(kind, caption, count, w, handlers)
    }

    constructor HomeButton(count: int := 0)
      ensures kind == Home && caption == HOME_CAPTION && this.count == count
      ensures Valid() && handlers == ClickHandlers(kind)
    {
      kind, caption := Home, HOME_CAPTION;
      this.count := count;
      w := Widget(Home, HOME_CAPTION, count);
      handlers := [];
      new;
      Connect(ShowAllMessages);
    }

    constructor PMButton(count: int := 0)
      ensures kind == PM && caption == PM_CAPTION && this.count == count
      ensures Valid() && handlers == ClickHandlers(kind)
    {
      kind, caption := PM, PM_CAPTION;
      this.count := count;
      w := Widget(PM, PM_CAPTION, count);
      handlers := [];
      new;
      Connect(ShowAllPM);
    }

    constructor StreamButton(properties: StreamProperties, view: View, count: int := 0)
      requires |properties.color| >= 6
      requires DEFAULT_THEME in view.palette
      modifies view
      ensures kind == Stream(properties.streamId, ColorKey(properties.color))
      ensures caption == properties.name && this.count == count
      ensures view.palette == RegisterStreamColor(old(view.palette), ColorKey(properties.color))
      ensures Valid() && handlers == ClickHandlers(kind)
    {
      var key := ColorKey(properties.color);
      view.palette := view.palette[DEFAULT_THEME := view.palette[DEFAULT_THEME] + [StreamPaletteEntry(key)]];
      kind, caption := Stream(properties.streamId, key), properties.name;
      this.count := count;
      w := Widget(Stream(properties.streamId, key), properties.name, count);
      handlers := [];
      new;
      Connect(NarrowToStream);
      Connect(StreamBoxView);
    }

    constructor UserButton(user: UserRecord, view: View, color: Option<string> := None, count: int := 0)
      ensures kind == User(user.email, user.userId, color, Recipients(user.userId, view.ownUserId))
      ensures caption == user.fullName && this.count == count
      ensures Valid() && handlers == ClickHandlers(kind)
    {
      var k := User(user.email, user.userId, color, Recipients(user.userId, view.ownUserId));
      kind, caption := k, user.fullName;
      this.count := count;
      w := Widget(k, user.fullName, count);
      handlers := [];
      new;
      Connect(NarrowToUser);
      Connect(PrivateBoxView);
    }

    /** `urwid.connect_signal(self, 'click', h)`: `h` joins the end of the
        handler list. */
    method Connect(h: Handler)
      modifies this`handlers
      ensures handlers == old(handlers) + [h]
    {
      handlers := handlers + [h];
    }

    /** `update_count(n)`. */
    method UpdateCount(n: int)
      modifies this`count, this`w
      ensures State() == Updated(old(State()), n)
      ensures Valid()
    {
      count := n;
      w := Widget(kind, caption, n);
    }
  }

  /** `MenuButton`: a caption (and an optional email) under a fixed indent,
      with no count. */
  class MenuButton {
    const caption: string
    const email: string
    var w: Display

    constructor (caption: string, email: string := "")
      ensures this.caption == caption && this.email == email
      ensures w == MenuWidget(caption)
    {
      this.caption, this.email := caption, email;
      w := MenuWidget(caption);
    }
  }

  /** A stream button built from `#1a2b3c` and driven through two count
      updates: its glyph is painted with key `#123`, the palette gains that
      key's entry, and the badge reads " 5" and then the bare space. */
  method StreamScenario() returns (key: string, palette: seq<PaletteEntry>, badge5: string, badge0: string)
    ensures key == "#123"
    ensures palette == [PaletteEntry("#123", "", "", "", "#123", "black")]
    ensures badge5 == " 5" && badge0 == " "
  {
    var view := new View(map[DEFAULT_THEME := []], 1);
    var b := new Button.StreamButton(StreamProperties("general", 7, "#1a2b3c"), view);
    ColorKeyExample();
    key := b.kind.colorKey;
    palette := view.palette[DEFAULT_THEME];
    b.UpdateCount(5);
    badge5 := b.w.segments[2].text;
    b.UpdateCount(0);
    badge0 := b.w.segments[2].text;
  }
}
