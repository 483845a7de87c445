/** What a sidebar button draws: the `widget(count)` of each button of
    zulipterminal/ui_tools/buttons.py, stated as a value instead of urwid
    objects. A display is a list of text segments (plain, or carrying a
    palette attribute), the cursor column inside the flattened text, the
    attribute applied when the button is not focused and the one applied when
    it is. */
module Render {
  import opened Decimal

  datatype Option<T> = None | Some(value: T)

  /** One element of the markup list given to the selectable icon. */
  datatype Segment = Plain(text: string) | Styled(attr: string, text: string)

  datatype Display = Display(
    segments: seq<Segment>,
    cursor: int,
    attr: Option<string>,      // the attribute map of the unfocused button
    focusAttr: string)         // the attribute map of the focused button

  /** The four kinds of counted button and the identity each one carries. */
  datatype Kind =
    | Home
    | PM
    | Stream(streamId: int, colorKey: string)
    | User(email: string, userId: int, color: Option<string>, recipients: set<int>)

  const HOME_GLYPH: string := "  \U{26FA}  "
  const PM_GLYPH: string := "  \U{260F}  "
  const STREAM_GLYPH: string := "  # "
  const USER_GLYPH: string := "  \U{2022}  "
  const MENU_INDENT: string := "    "

  const BADGE_ATTR: string := "idle"
  const FOCUS_ATTR: string := "selected"

  /** The text a display shows, segment after segment. */
  function Flatten(segments: seq<Segment>): string
  {
    if segments == [] then "" else segments[0].text + Flatten(segments[1..])
  }

  lemma FlattenThree(a: Segment, b: Segment, c: Segment)
    ensures Flatten([a, b, c]) == a.text + b.text + c.text
  {
    assert [a, b, c][1..] == [b, c];
    assert [b, c][1..] == [c];
    assert [c][1..] == [];
    assert Flatten([c]) == c.text;
    assert Flatten([b, c]) == b.text + c.text;
  }

  /** The leading segment: a glyph, which a stream button paints in its
      colour key. */
  function Glyph(kind: Kind): Segment
  {
    match kind
    case Home => Plain(HOME_GLYPH)
    case PM => Plain(PM_GLYPH)
    case Stream(_, key) => Styled(key, STREAM_GLYPH)
    case User(_, _, _, _) => Plain(USER_GLYPH)
  }

  /** The constant the source adds to the caption length to place the cursor. */
  function CursorShift(kind: Kind): nat
  {
    if kind.Stream? then 4 else 5
  }

  /** The badge text: a space, then the count in decimal when it is positive.
      A count of zero or below leaves the single space, never "0" nor a
      minus sign. */
  function BadgeText(count: int): (t: string)
    ensures |t| >= 1 && t[0] == ' ' && AllDigits(t[1..])
    ensures t == " " <==> count <= 0
    ensures t != " 0"
  {
    " " + (if count <= 0 then "" else Show(count))
  }

  /** What a reader of the badge takes the count to be. */
  function ReadBadge(t: string): nat
    requires |t| >= 1 && AllDigits(t[1..])
  {
    Parse(t[1..])
  }

  /** The badge shows the count exactly when it is positive, and zero
      otherwise. */
  lemma BadgeRoundTrip(count: int)
    ensures ReadBadge(BadgeText(count)) == if count <= 0 then 0 else count
  {
    var t := BadgeText(count);
    if count > 0 {
      assert t[1..] == Show(count);
      ParseShow(count);
    } else {
      assert t[1..] == [];
    }
  }

  /** `widget(count)` of Home, PM, Stream and User buttons. */
  function Widget(kind: Kind, caption: string, count: int): (d: Display)
    ensures |d.segments| == 3
    ensures d.segments[0] == Glyph(kind) && d.segments[1] == Plain(caption)
    ensures d.segments[2].Styled? && d.segments[2].attr == BADGE_ATTR
    ensures d.segments[2].text == BadgeText(count)
    ensures d.focusAttr == FOCUS_ATTR
    ensures d.attr == if kind.User? then kind.color else None
    // the cursor sits on the leading space of the badge, right after the caption
    ensures d.cursor == |Glyph(kind).text| + |caption|
    ensures 0 <= d.cursor < |Flatten(d.segments)| && Flatten(d.segments)[d.cursor] == ' '
  {
    var d := Display([Glyph(kind), Plain(caption), Styled(BADGE_ATTR, BadgeText(count))],
                     |caption| + CursorShift(kind), None, FOCUS_ATTR);
    FlattenThree(d.segments[0], d.segments[1], d.segments[2]);
    if kind.User? then d.(attr := kind.color) else d
  }

  /** A count change alters the badge segment and nothing else of the display. */
  lemma WidgetCountOnlyInBadge(kind: Kind, caption: string, m: int, n: int)
    ensures Widget(kind, caption, n)
         == Widget(kind, caption, m).(segments := Widget(kind, caption, m).segments[2 := Styled(BADGE_ATTR, BadgeText(n))])
  {
  }

  /** The display of a count can be read back from its badge. */
  lemma WidgetShowsCount(kind: Kind, caption: string, count: int)
    ensures var b := Widget(kind, caption, count).segments[2].text;
            |b| >= 1 && AllDigits(b[1..]) && ReadBadge(b) == if count <= 0 then 0 else count
  {
    BadgeRoundTrip(count);
  }

  /** Two positive counts give the same display only when they are equal. */
  lemma WidgetPositiveInjective(kind: Kind, caption: string, m: int, n: int)
    requires m > 0 && n > 0
    requires Widget(kind, caption, m) == Widget(kind, caption, n)
    ensures m == n
  {
    WidgetShowsCount(kind, caption, m);
    WidgetShowsCount(kind, caption, n);
  }

  /** `MenuButton`'s display: a four-space indent before the caption, no
      badge, no colour, the cursor on the first column. */
  function MenuWidget(caption: string): (d: Display)
    ensures forall i :: 0 <= i < |d.segments| ==> d.segments[i].Plain?
    ensures Flatten(d.segments) == MENU_INDENT + caption
    ensures d.cursor == 0 && d.attr == None && d.focusAttr == FOCUS_ATTR
  {
    var d := Display([Plain(MENU_INDENT), Plain(caption)], 0, None, FOCUS_ATTR);
    assert d.segments[1..] == [Plain(caption)];
    assert [Plain(caption)][1..] == [];
    assert Flatten([Plain(caption)]) == caption;
    d
  }
}
