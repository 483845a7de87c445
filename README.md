# Sidebar buttons of zulip-terminal, modelled in Dafny

zulip-terminal's sidebar lists its navigation entries as buttons: "All messages"
(`HomeButton`), "Private messages" (`PMButton`), one `StreamButton` per stream
and one `UserButton` per user, plus a plain `MenuButton`. Each counted button
keeps a caption, an unread count and a cached display. `update_count` changes
the count and rebuilds the display. The display shows a glyph, the caption and
a badge with the count. Building a button also connects its click handlers.
A stream button derives a colour key from the stream colour and appends a
palette entry for it to the view's shared palette. A user button fixes the set
of recipients of a private message to that user.

The project has three modules:

- `Decimal` (decimal.dfy): Python's `str()` of a non-negative integer, and the
  parser that reads it back.
- `Render` (render.dfy): `widget(count)` as a pure function from kind, caption
  and count to a `Display` value. A display holds the text segments, the cursor
  column, the unfocused attribute and the focused attribute.
- `Buttons` (buttons.dfy): the colour key, the palette append, the recipients,
  the click handlers, and one `Button` class with one constructor per Python
  button class. The class holds the mutable `count`, the display `w` and the
  handler list. `UpdateCount` is proved against the pure state transition
  `Updated`. `MenuButton` is a class of its own.

Two details of the code shape the model:

- A count of zero or below gives the badge text `" "`, one space.
  `Render.Widget` proves that the cursor column always lands on that space,
  right after the caption.
- The stream colour key has four characters (`#rgb`).

## Model

| member | source | states |
|---|---|---|
| `Decimal.Show` | zulipterminal/ui_tools/buttons.py:31 | `str(n)` of a natural number is a non-empty string of decimal digits with no leading zero; 0 is written exactly `"0"` |
| `Decimal.ParseShow` | zulipterminal/ui_tools/buttons.py:31 | reading back the decimal text of `n` gives `n` |
| `Decimal.ShowInjective` | zulipterminal/ui_tools/buttons.py:31 | different counts are written as different decimal texts |
| `Render.BadgeText` | zulipterminal/ui_tools/buttons.py:28-31 | the badge text starts with a space followed only by digits; it is exactly `" "` if and only if the count is not positive; it is never `" 0"` and never holds a minus sign |
| `Render.BadgeRoundTrip` | zulipterminal/ui_tools/buttons.py:28-31 | the number read back from the badge is the count when the count is positive, and 0 otherwise |
| `Render.Widget` | zulipterminal/ui_tools/buttons.py:27-34 | for all four kinds (Home at lines 27-34, PM 49-56, Stream 78-85, User 108-115) the segments are, in order, the glyph, the caption and the badge; the badge carries `'idle'` whatever the count; the focus attribute is `'selected'`; the unfocused attribute is `None`, except for a user button, which uses its colour; the cursor is the glyph width plus the caption length, so it falls on the badge's leading space |
| `Render.WidgetCountOnlyInBadge` | zulipterminal/ui_tools/buttons.py:27-34 | two displays of the same button with different counts differ only in the badge segment |
| `Render.WidgetShowsCount` | zulipterminal/ui_tools/buttons.py:27-34 | the count can be read back from the display's badge (0 for a non-positive count) |
| `Render.WidgetPositiveInjective` | zulipterminal/ui_tools/buttons.py:27-34 | two positive counts give the same display only when they are equal |
| `Render.MenuWidget` | zulipterminal/ui_tools/buttons.py:11-12 | a menu button shows a four-space indent and then the caption, with no styled segment and no badge; the cursor is at column 0; the unfocused attribute is `None` and the focused one is `'selected'` |
| `Buttons.ColorKey` | zulipterminal/ui_tools/buttons.py:64-65 | for a colour of at least six characters the key has four characters: the first two of the colour, then its characters at positions 3 and 5 |
| `Buttons.ColorKeyTakesChannelLeads` | zulipterminal/ui_tools/buttons.py:64-65 | on a `#rrggbb` colour the key is `#` followed by the leading hex digit of the red, green and blue channels |
| `Buttons.ColorKeyExample` | zulipterminal/ui_tools/buttons.py:64-65 | `'#1a2b3c'` gives the key `'#123'` |
| `Buttons.RegisterStreamColor` | zulipterminal/ui_tools/buttons.py:66-67 | the append adds exactly one entry, `(key, '', '', '', key, 'black')`, at the end of the `'default'` palette; earlier entries, other themes and the set of themes are unchanged |
| `Buttons.Recipients` | zulipterminal/ui_tools/buttons.py:96-97 | the recipients are exactly the peer's id and the viewer's id; the set has one element when the two ids are equal and two otherwise |
| `Buttons.RecipientsSymmetric` | zulipterminal/ui_tools/buttons.py:96-97 | the recipient set does not depend on which of the two ids is the peer |
| `Buttons.ClickHandlers` | zulipterminal/ui_tools/buttons.py:100-102 | a user button connects `narrow_to_user` and then `private_box_view`; a stream button connects `narrow_to_stream` and then `stream_box_view` (lines 71-72); a Home button connects only `show_all_messages` (line 21) and a PM button only `show_all_pm` (line 43); the first handler is always the controller's |
| `Buttons.Updated` | zulipterminal/ui_tools/buttons.py:23-25 | `update_count(n)` sets the count to `n` and the display to the one `n` calls for, so the badge reads `n` (0 if `n` is not positive); kind, identity, colour, recipients, caption and handlers are unchanged |
| `Buttons.UpdatedIdempotent` | zulipterminal/ui_tools/buttons.py:23-25 | two updates with the same count leave the same state as one |
| `Buttons.UpdatedLastWins` | zulipterminal/ui_tools/buttons.py:23-25 | after two updates, only the last count is visible |
| `Buttons.Button.UpdateCount` | zulipterminal/ui_tools/buttons.py:104-106 | the object's new state is `Updated` of its old state (the same body at lines 23-25, 45-47 and 74-76), and the cached display agrees with the count |
| `Buttons.Button.Connect` | zulipterminal/ui_tools/buttons.py:21 | connecting a handler appends it at the end of the button's handler list |
| `Buttons.Button.HomeButton` | zulipterminal/ui_tools/buttons.py:16-21 | caption `'All messages'`, the given count (0 by default), a display consistent with the count, and the single handler `show_all_messages` |
| `Buttons.Button.PMButton` | zulipterminal/ui_tools/buttons.py:38-43 | caption `'Private messages'`, the given count, a consistent display, and the single handler `show_all_pm` |
| `Buttons.Button.StreamButton` | zulipterminal/ui_tools/buttons.py:60-72 | caption and stream id from the properties; the colour key derived from the colour; the palette updated by `RegisterStreamColor` and nothing else of the view changed; a consistent display, whose glyph carries the key; handlers `narrow_to_stream` then `stream_box_view` |
| `Buttons.Button.UserButton` | zulipterminal/ui_tools/buttons.py:89-102 | caption, email and id from the user record; the given colour; recipients `{user_id, view.model.user_id}`; a consistent display; handlers `narrow_to_user` then `private_box_view` |
| `Buttons.MenuButton.constructor` | zulipterminal/ui_tools/buttons.py:7-12 | keeps the caption and the email (empty by default) and shows `MenuWidget(caption)` |
| `Buttons.StreamScenario` | zulipterminal/ui_tools/buttons.py:59-85 | a stream button built from `'#1a2b3c'` gets the key `'#123'` and adds the one entry `('#123', '', '', '', '#123', 'black')` to an empty default palette; after `update_count(5)` its badge reads `' 5'` and after `update_count(0)` it reads `' '` |

## Left out

- urwid itself (`urwid.Button`, `AttrMap`, `SelectableIcon`, the `super().__init__("")` call) is a library outside this model. The display is the `Render.Display` value that those objects would be built from.
- Firing a click (urwid's `emit_signal`) is not modelled. The model records which handlers are connected and in what order; calling them in that order is urwid's job.
- The controller and write-box callbacks are external. Handlers are tags in `Buttons.Handler`; the `controller` and `view.write_box` arguments are not parameters of the constructors.
- Drawing, the terminal width of the glyphs and focus handling are runtime concerns. Glyphs are opaque string constants, and the cursor is a character index into the flattened text.
- `Buttons.ColorKey` requires a colour of at least six characters. Python raises `IndexError` on a shorter one, and that error path is not modelled. The colour is not checked to be hex.
- `Buttons.Button.StreamButton` requires a `'default'` theme in the palette. Python would raise `KeyError` without it. A `properties` list shorter than three elements would raise `IndexError`; the model takes a three-field record instead.
- `Buttons.Button.UserButton` takes a record with `full_name`, `email` and `user_id`. A dictionary missing one of these keys raises `KeyError` in Python, and that error path is not modelled.
- The statement order inside the constructors is not modelled (for example, `PMButton` sets `count` after calling the base constructor). Nothing in the model can observe that order.
- Python's dynamic typing is not modelled: captions are strings and counts and ids are integers. `MenuButton` accepts any caption in Python.
- `Buttons.RegisterStreamColor`: the palette is modelled as a map from theme name to a sequence of entries, so "other themes unchanged" assumes each theme's Python list is a separate object; aliasing between theme lists, and the in-place `append` on a list object other code may share, are not modelled.
- Palette entries are all modelled as six-field records; urwid also accepts three- to five-field tuples for entries already in the palette, which the model does not represent.
