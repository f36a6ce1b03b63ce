# Message reply helpers, modelled in Dafny

This project models the core of `utils/extenders/Message.js` of a chat-bot template: the
helpers that extend every inbound message object.

- `error(description, image)` sends one styled error embed. Its image is either a local
  file, attached and referenced as `attachment://<basename>`, or an external URL given
  verbatim.
- `post(content, options)` merges the caller's options over the defaults
  `page = 1`, `time = 120000` and `allowedMentions = { repliedUser: false }`. It then
  dispatches on the shape of `content`:
  - a string is sent as `content`;
  - an embed (an object with `data`) is sent as `embeds: [content]`;
  - any other object without `pages` is spread into the reply;
  - an object with `pages` starts a paginated post;
  - an array, a boolean or a number sends nothing;
  - `null` and `undefined` throw.
- A paginated post first normalises every page.
  - Each key of the parent's `data` other than `pages` fills a falsy page value.
  - An author object lacking an icon gets the parent author's `iconURL`.
  - The parent's `fields` value is `unshift`ed onto the page's fields, as one element.
  - The footer is set to the counter `『 Page i/N 』`, followed by the parent footer text
    when there is one.
- Each page then becomes a payload with the shared files and a `prev`/`next`/`stop`
  button row. The payload of the start page is sent.
- With more than one page, a session follows.
  - The author's `next` and `prev` presses move the page with wrap-around and edit the
    message to the selected payload. That payload's falsy content becomes a zero-width
    space.
  - `stop`, or the collector running out of time, ends the session. The current payload
    loses its buttons and is sent as the final edit.

Modules, one file each:

- `Js` (`js.dfy`) — JavaScript values (`undefined`, `null`, booleans, integers, strings,
  arrays, objects as maps of own properties), truthiness, `||`, property reads, `String(v)`
  and decimal printing.
- `ErrorReply` (`error_reply.dfy`) — the image decision of `error`. The filesystem
  check and `basename` are function parameters.
- `Pages` (`pages.dfy`) — page normalisation, the footer and the payloads. The
  `forEach` over keys and the `map` over pages are methods with loops. They are proved
  equal to the functions `Inherit` and `NormalizedPages`, and the properties are proved
  about those functions.
- `Session` (`session.dfy`) — the session as a pure state machine (`Start`, `Step`,
  `Run`) with its lemmas. The class `Session.Pagination` holds the payloads in an array and
  has one method per collector handler. Each method is proved to perform `Step`.
- `Post` (`post.dfy`) — the option merge, the shape dispatch and the resulting outcome.

Details of the code's behaviour that the model follows:

- The footer is `『 Page i/N 』` followed directly by the parent text, with corner
  brackets and no separating space.
- The parent footer is read from `content.footer`, not from `content.data.footer`.
- A parent footer that has no text leaves the page footer untouched.
- A page value is replaced when it is falsy, not only when it is absent.
- The parent's `fields` list is inserted as one head element, not element by element.
- For object content, only `allowedMentions` of the merged options reaches the reply.
  The caller can override `allowedMentions` there. Paged payloads always carry
  `{ repliedUser: false }`.
- A press whose custom id is none of `prev`, `next` or `stop` falls through the `switch`.
  It re-edits the current payload.

## Model

| member | source | states |
|---|---|---|
| `ErrorReply.Error` | utils/extenders/Message.js:17-38 | exactly one embed with the description and no mention ping; no image and no `files` key without an image; an existing path is attached under its basename and shown as `attachment://<basename>`; any other image string is the URL verbatim; `files` is present exactly when the path exists |
| `ErrorReply.AttachmentIsShown` | utils/extenders/Message.js:24-27 | when a file is attached, the embed image URL names that attachment |
| `Post.MergeOptions` | utils/extenders/Message.js:50-57 | the merged keys are the defaults' and the caller's; every caller key, `allowedMentions` included, overrides; omitted keys take the defaults |
| `Post.Post` | utils/extenders/Message.js:59-76 | a string yields one reply with that content and every merged option; an object with `data` yields exactly `{embeds: [content], allowedMentions}`; other objects without `pages` yield their own properties plus the merged `allowedMentions`; arrays, booleans and numbers yield no reply; `null`/`undefined` throw; a paged object yields the prepared payloads with the merged `page` and `time`, or the error preparing them throws |
| `Post.PaginatedStarts` | utils/extenders/Message.js:125-134 | a paginated outcome with its start page in range opens a session satisfying the session invariant |
| `Pages.ParseParent` | utils/extenders/Message.js:76-77 | pagination proceeds exactly when `pages` is an array, reading `data`, `footer` and `files` from the parent |
| `Pages.KeyStep` | utils/extenders/Message.js:79-82 | processing one key fails only for `fields` |
| `Pages.Inherit` | utils/extenders/Message.js:78-83 | normalising a page's data fails exactly when its `fields` key fails, with that key's error; on success the keys are the page's plus the parent's other than `pages` |
| `Pages.InheritProperties` | utils/extenders/Message.js:78-82 | falsy or missing page values take the parent's; truthy ones are kept; keys the parent lacks and `pages` are untouched; an own author object without an icon takes the parent's `iconURL`; an own author with an icon, one whose parent offers no icon, or a truthy own author that is not an object is kept; own fields gain the parent value as the single new head element; a page without own fields fails when the parent has `fields` |
| `Pages.ProcessKey` | utils/extenders/Message.js:79-82 | the statements for one key compute `KeyStep`, and the `pages` key changes nothing |
| `Pages.InheritKeys` | utils/extenders/Message.js:78-83 | the loop over the parent's keys computes `Inherit` |
| `Pages.WithFooter` | utils/extenders/Message.js:85-95 | nothing but the footer changes; with no parent footer the footer is exactly the counter; with a parent footer text it is the counter followed by that text, its other footer properties kept; a parent footer without text leaves the page alone |
| `Pages.NormalizedPages` | utils/extenders/Message.js:77-98 | a successful `map` yields one page per input page |
| `Pages.NormalizedPagesAt` | utils/extenders/Message.js:77-98 | the pages normalise exactly when each does, and each result is that page normalised on its own |
| `Pages.NormalizePage` | utils/extenders/Message.js:77-98 | the callback for one page computes `NormalizedPage` |
| `Pages.NormalizePages` | utils/extenders/Message.js:77-98 | the loop over the pages computes `NormalizedPages`, stopping at the first throw |
| `Pages.Paginate` | utils/extenders/Message.js:100-123 | one payload per page, each with no content, the parent's files or `[]`, exactly the `prev`/`next`/`stop` row and no mention ping |
| `Pages.PaginatedPage` | utils/extenders/Message.js:77-123 | payload `i` carries page `i` normalised |
| `Pages.CounterFooters` | utils/extenders/Message.js:93-95 | without a parent footer, page `i` of `N` has footer exactly `{text: "『 Page i/N 』"}`, and no two pages share a footer |
| `Pages.TextFooters` | utils/extenders/Message.js:85-92 | with parent footer text `s`, page `i` of `N` has footer text `『 Page i/N 』` followed by `s` |
| `Pages.CounterInjective` | utils/extenders/Message.js:90-94 | the counter text determines the page index and the page count |
| `Pages.SecondOfThree` | utils/extenders/Message.js:77-123 | a concrete post of three empty pages under parent data `{title: "Help"}` and parent footer text "Hello" paginates into three payloads; the second inherits the title and its footer text reads `『 Page 2/3 』Hello` |
| `Session.Next` | utils/extenders/Message.js:140-142 | `next` keeps a page in [1, N] within it |
| `Session.Prev` | utils/extenders/Message.js:143-145 | `prev` keeps a page in [1, N] within it |
| `Session.PrevUndoesNext` | utils/extenders/Message.js:140-145 | `prev` after `next` and `next` after `prev` return to the same page |
| `Session.NextIterAdd` | utils/extenders/Message.js:140-142 | `a` then `b` presses of `next` equal `a + b` presses |
| `Session.NextIterClimbs` | utils/extenders/Message.js:140-142 | below the last page, `k` presses of `next` advance by `k` |
| `Session.FullTurn` | utils/extenders/Message.js:140-142 | `N` presses of `next` return to the starting page |
| `Session.Start` | utils/extenders/Message.js:127-134 | the session begins on the start page over the given payloads; the start page's payload is the only message sent; a one-page post never creates a collector |
| `Session.Step` | utils/extenders/Message.js:136-158 | the page stays in range; without a collector, or after the end, nothing changes; other users' presses change nothing; `stop` and the timeout keep the page, clear the buttons of the current payload only and send it as the final edit; `next`/`prev` move with wrap-around, and only the newly selected payload changes: its falsy content becomes the zero-width space, and it is sent as the edit |
| `Session.FinalsAppend` | utils/extenders/Message.js:155-158 | appending an action adds one final edit exactly when that action is a button-clearing edit |
| `Session.StartConsistent` | utils/extenders/Message.js:100-134 | the first state satisfies the session invariant |
| `Session.StepConsistent` | utils/extenders/Message.js:136-158 | every event keeps the invariant: page in range, buttons cleared on the current page only and only after the end, one final edit exactly when ended |
| `Session.RunConsistent` | utils/extenders/Message.js:136-158 | any sequence of events keeps the invariant |
| `Session.Quiescent` | utils/extenders/Message.js:129-158 | once ended, or when no collector exists, no event changes anything |
| `Session.SinglePageSendsOnce` | utils/extenders/Message.js:127-129 | a one-page post sends exactly its reply, whatever happens afterwards |
| `Session.OthersIgnored` | utils/extenders/Message.js:131-133 | presses by users other than the author change nothing |
| `Session.NextPresses` | utils/extenders/Message.js:140-152 | `k` author presses of `next` land on the page `k` steps on with wrap-around, the session still open |
| `Session.NextPressesComeBack` | utils/extenders/Message.js:140-152 | `N` author presses of `next` show the starting page again |
| `Session.NextIterShift` | utils/extenders/Message.js:140-142 | one `next` press followed by `k` is `k + 1` presses |
| `Session.EndsAtMostOnce` | utils/extenders/Message.js:146-158 | from the first reply, the log holds one button-clearing edit exactly when the session has ended, and none before |
| `Session.Pagination.constructor` | utils/extenders/Message.js:125-134 | the object starts in `Start`'s state, with the payloads in a fresh array |
| `Session.Pagination.Collect` | utils/extenders/Message.js:136-153 | the `collect` handler performs `Step` for the press and keeps the invariant |
| `Session.Pagination.Expire` | utils/extenders/Message.js:131-134 | the timeout performs `Step` for it and keeps the invariant |
| `Session.Pagination.End` | utils/extenders/Message.js:155-158 | the `end` handler, run once on a listening session, performs `Step` for the end of the collector: it clears the current payload's buttons, records it as the final edit, ends the session and keeps the invariant |

## Left out

- `events/ready.js` is not part of this model. It sets the presence, logs a banner and
  pushes command lists to guilds, all through library and network calls.
- `reacts` is not modelled. It starts reactions without awaiting them, so it has no
  behaviour beyond that side effect.
- discord.js builders are plain data. An embed is its `data` map, and a button is its
  custom id; emoji and style are not modelled. `setFooter` stores the record it is given.
  The library's renaming of `iconURL` to `icon_url` is not modelled.
- The attachment is modelled as named by the basename. Whether the library reads a
  plain string as the attachment name depends on its version, which is not part of this
  model.
- `fs.existsSync` and `path.basename` are parameters of `ErrorReply.Error`.
- The error embed's colour and thumbnail are not modelled. They come from configuration
  files that are not part of this model.
- Collector timing is not modelled: the `time` option is passed through, and the
  timeout is the `Expired` event. `deferUpdate`, `await`, promise rejections and the
  network behaviour of `reply` and `edit` are left out. An edit is recorded with the
  payload as it is at the call.
- Numbers are integers. Fractions, `NaN` and infinities are not modelled.
- `Js.Stringify` prints every digit of an integer. JavaScript prints magnitudes from
  10^21 up in exponent form and rounds integers beyond 2^53; neither is modelled.
- `Session.Pagination.constructor` and `Session.Start` require a start page in [1, N]. The
  code does not check the `page` option, so a page outside that range, or a post with
  zero pages, is not modelled.
- `Pages.KeyStep` does not compute a page without its own `fields` when the parent has
  a `fields` key; it returns `Unmodelled`. There, line 80 makes the page share the
  parent's array and line 82 then `unshift`s that array into itself. The result is
  cyclic and has no value form.
- `Pages.DataEntries` does not compute a parent `data` that is a string or an array; it
  returns `Unmodelled`. Their index keys are not modelled.
- `Pages.PageData` treats every page that is not an object with an object `data` as a
  `TypeError`. In the code such a page passes when the parent's `data` has no keys and
  the footer step calls nothing on it.
- `Pages.SetIcon` ignores an icon written onto a truthy non-object author. Primitives
  ignore the write, and an array's named property is not part of its JSON form.
- Objects are values. Sharing between the caller's page objects, and the caller seeing
  its pages mutated after `post`, are not modelled. Each key touches only its own
  property, so the order of `Object.keys` does not matter.
- Property reads see only own properties: no prototypes and no getters. Omitted
  `options` are the empty map, and `options` that are not an object are not modelled.
