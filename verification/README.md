# Animated love-letter card: playback model

This project models the playback logic of the animated message card and the
page state that feeds it. The page sends a message to a generation service.
It receives an animation payload of frames, a theme, a caption, tags and overlay
layers, and shows the payload as a card. On the card:

- a timer cycles through the frames, looping;
- each frame shows its emoji with a looping motion, and its text;
- a gradient chosen from the theme sits behind the card;
- decorative overlay glyphs loop over it.

The page keeps a loading flag, an error text and the current payload. Its
animate handler updates them from the outcome of the request.

Modules:

- `Payload` (payload.dfy): frames, overlay items and layers, the raw payload
  whose fields may be missing, and the card's property defaults.
- `MotionVariants` (motion_variants.dfy): the five looping motions and the lookup by name.
- `ThemeResolver` (theme_resolver.dfy): theme to accent gradient.
- `OverlayCompositor` (overlay_compositor.dfy): layers and items flattened into positioned glyphs.
- `FrameSequencer` (frame_sequencer.dfy): dwell time and index stepping, as
  pure functions with their cycle properties. The class `Sequencer` holds the
  mutable `index` and the frames, and has a `Tick` event.
- `MessageCard` (message_card.dfy): the composed card, meaning the shown frame
  with its fallbacks, the accent, the glyphs and the caption.
- `App` (app.dfy): the request state machine, as pure transitions and as the
  class `Page`, and the page selectors (mood text, orbit emoji and colour, tag panel).

Conventions:

- A string field that JavaScript reads as falsy (absent or empty) is `""`.
- A frame or item duration is an integer number of milliseconds, and a frame
  duration of 0 means absent.
- A top-level payload field that may be missing from the JSON is an `Option`.
- Overlay positions and sizes are exact `real`s.
- A timer firing is one `Tick` event.

In these places the model follows the code where a reader might expect otherwise:

- The frame index is not reset to 0 when a new payload arrives; it is kept
  (`FrameSequencer.Sequencer.SetFrames`). If the new frames reach that index,
  the card shows that frame at once. If the index is past the end of a
  non-empty list, the empty record is shown for 2.4 s until the next tick
  brings the index back in range (`FrameSequencer.SwapPastEnd`). With no
  frames there is no timer, and the empty record stays
  (`FrameSequencer.NoFramesNoMovement`).
- A frame without a duration stays up for 2.4 seconds, not for the 1.8-second floor.
- A motion name outside the table gives no variant. It does not fall back to `float`.
- Overlay layers are drawn strictly in array order. No kind is raised above the others.

## Model

| member | source | states |
|---|---|---|
| `Payload.PropsOf` | src/components/AnimatedMessage.jsx:66 | A missing frames, caption or overlays field becomes empty, and a missing theme becomes `'default'`. A present field is passed through unchanged. |
| `MotionVariants.VariantFor` | src/components/AnimatedMessage.jsx:110 | An absent motion gives the float variant. Each of the five names gives its own variant. Any other name gives no variant. Every variant fades in from opacity 0 to 1 and repeats forever. |
| `MotionVariants.VariantsDistinct` | src/components/AnimatedMessage.jsx:4-30 | Two different names in the table give two different variants. |
| `ThemeResolver.AccentFor` | src/components/AnimatedMessage.jsx:76-91 | The accent is always one of the six gradients. It is the default gradient exactly when the theme is none of romance, gratitude, missyou, apology and celebration. Each of those five gets its own gradient. |
| `ThemeResolver.AccentInjectiveOnNamed` | src/components/AnimatedMessage.jsx:76-91 | Two themes with the same accent are the same theme, or both fall to the default. |
| `OverlayCompositor.RotationFor` | src/components/AnimatedMessage.jsx:52 | The rotation swings through `[0, 45, -45, 0]` exactly for the `confetti` kind. Otherwise it is a constant 0. |
| `OverlayCompositor.SpanOf` | src/components/AnimatedMessage.jsx:39-58 | A glyph is at `left = x*100%` and `top = y*100%`, with font size `size` px and the item's emoji. Its delay and duration are the item's own. It repeats forever, and its rotation is the one for its layer's kind. |
| `OverlayCompositor.LayerSpans` | src/components/AnimatedMessage.jsx:38-59 | A layer draws one glyph per item, in item order. |
| `OverlayCompositor.Compose` | src/components/AnimatedMessage.jsx:36-61 | The overlay draws exactly as many glyphs as there are items over all layers. Each glyph names an existing layer and item. |
| `OverlayCompositor.OverlayOf` | src/components/AnimatedMessage.jsx:32-36 | The card's overlay is exactly `Compose` of its (defaulted) overlays prop, so it has the total item count of glyphs. `MessageCard.Render` draws it. |
| `OverlayCompositor.SpanPosition` | src/components/AnimatedMessage.jsx:36-61 | Item `j` of layer `l` is drawn at position "items of earlier layers + j". |
| `OverlayCompositor.ComposeOrdered` | src/components/AnimatedMessage.jsx:36-61 | Glyphs appear in layer order, and in item order within a layer. |
| `OverlayCompositor.NoOverlaysNoSpans` | src/components/AnimatedMessage.jsx:32 | No layers, which is the default, draws no glyphs. |
| `FrameSequencer.DwellMs` | src/components/AnimatedMessage.jsx:72 | The dwell is never below 1800 ms. An absent duration gives exactly 2400 ms. A duration of at least 1800 ms is kept as it is, and any other present duration is raised to 1800 ms. |
| `FrameSequencer.Advance` | src/components/AnimatedMessage.jsx:72 | With frames, one tick lands in `[0, n)`. From a valid index it moves to the next index, and from the last it wraps to 0. With no frames the index does not move. |
| `FrameSequencer.Visits` | src/components/AnimatedMessage.jsx:72 | The k-period visit list has length k, and its t-th entry is the index after t ticks. |
| `FrameSequencer.ShownFrame` | src/components/AnimatedMessage.jsx:68 | The shown frame is `frames[index]` when the index is in range, and otherwise the empty record. |
| `FrameSequencer.TimerPeriod` | src/components/AnimatedMessage.jsx:70-74 | A timer exists exactly when there are frames. Its period is the dwell of the shown frame, which is at least 1800 ms, and 2400 ms while the index is out of range. |
| `FrameSequencer.Playback` | src/components/AnimatedMessage.jsx:67-74 | Period t of playback shows the index reached after t ticks, for that frame's dwell. |
| `FrameSequencer.Sequencer.constructor` | src/components/AnimatedMessage.jsx:67 | A mounted card starts at index 0 with the given frames. |
| `FrameSequencer.Sequencer.Shown` | src/components/AnimatedMessage.jsx:68 | The current frame is the indexed one, or the empty record out of range. |
| `FrameSequencer.Sequencer.Period` | src/components/AnimatedMessage.jsx:70-74 | The object's timer period is `TimerPeriod` of its frames and index: none exactly when there are no frames, otherwise at least 1800 ms, the shown frame's dwell when the index is in range, and 2400 ms when it is not. |
| `FrameSequencer.Sequencer.Tick` | src/components/AnimatedMessage.jsx:72 | A tick sets the index to `Advance` of the old index. Afterwards the index is in range if there are frames, and unchanged if there are none. |
| `FrameSequencer.Sequencer.SetFrames` | src/components/AnimatedMessage.jsx:67-74 | A new payload replaces the frames and keeps the index. |
| `FrameSequencer.AdvanceByIsModular` | src/components/AnimatedMessage.jsx:72 | From a valid index, k ≤ n ticks land on `(i + k) mod n`. |
| `FrameSequencer.TickRecovers` | src/components/AnimatedMessage.jsx:68-72 | An index left past the end by a payload swap is back in range after one tick. |
| `FrameSequencer.AdvanceByInRange` | src/components/AnimatedMessage.jsx:72 | After at least one tick over a non-empty sequence, the index is valid. |
| `FrameSequencer.NoFramesNoMovement` | src/components/AnimatedMessage.jsx:71 | With no frames, no number of ticks changes the index. |
| `FrameSequencer.FullCycleReturns` | src/components/AnimatedMessage.jsx:72 | n ticks from a valid index return to it. |
| `FrameSequencer.FullCycleVisitsEachOnce` | src/components/AnimatedMessage.jsx:72 | One full cycle shows `(i + t) mod n` in period t. It repeats no index and shows every index. |
| `FrameSequencer.SwapPastEnd` | src/components/AnimatedMessage.jsx:67-74 | After a swap leaves the index past the end, the empty record is shown for 2400 ms. After that only valid indices are shown. |
| `FrameSequencer.TwoFrameScenario` | src/components/AnimatedMessage.jsx:72 | Frames of 1 s and 3 s are shown for 1800 ms, then 3000 ms, and then the first comes back. |
| `MessageCard.EmojiOf` | src/components/AnimatedMessage.jsx:110 | The shown emoji is never blank. It is the frame's emoji, or sparkles (U+2728) when the frame has none. |
| `MessageCard.TextOf` | src/components/AnimatedMessage.jsx:123 | The shown text is never blank. It is the frame's text, or `'...'`. |
| `MessageCard.TextKeyOf` | src/components/AnimatedMessage.jsx:116 | The text element's key is the frame's text, or `'empty'`. |
| `MessageCard.CaptionBlock` | src/components/AnimatedMessage.jsx:128-130 | The caption block is rendered exactly when the caption is non-empty, and it shows the caption. |
| `MessageCard.Render` | src/components/AnimatedMessage.jsx:93-131 | The card combines the theme's accent, the overlay glyphs, the shown frame's emoji, motion variant, text and text key, and the caption block. |
| `MessageCard.OutOfRangeShowsPlaceholder` | src/components/AnimatedMessage.jsx:68 | With no frames, or with the index past the end, the card shows the placeholder: sparkles, `'...'`, the float motion and the `'empty'` key. |
| `MessageCard.InRangeShowsFrame` | src/components/AnimatedMessage.jsx:110-123 | A complete in-range frame is shown as it is. It has a motion variant exactly when its motion is absent or one of the five names. |
| `MessageCard.MissingFieldsRenderNeutralCard` | src/components/AnimatedMessage.jsx:66 | A payload with every field missing renders the placeholder with the default gradient, no glyphs and no caption. |
| `MessageCard.EmojiOfAsWritten` | src/components/AnimatedMessage.jsx:110 | The code as written shows the frame's emoji, or its three-character fallback literal. |
| `MessageCard.FallbackEmojiMisencoded` | src/components/AnimatedMessage.jsx:110 | The written fallback differs from sparkles. It is three characters, and they are exactly the Windows-1252 readings of the UTF-8 bytes E2 9C A8 of U+2728. |
| `App.Begin` | src/App.jsx:24-25 | Starting a request turns loading on and clears the error. The data is kept. |
| `App.ErrorText` | src/App.jsx:32-36 | A non-ok response gives `'Failed to generate animation'`. A thrown error gives its message, or `'Something went wrong'` when the message is empty. The text is never empty. |
| `App.Finish` | src/App.jsx:26-39 | Loading ends off. An ok payload replaces the data and leaves the error as it was. A failure keeps the data and sets the error text. |
| `App.HandleAnimate` | src/App.jsx:22-40 | After a whole handler run, loading is off. The error is empty exactly when the response was ok and parsed. The data is then the new payload. Otherwise the data is the old one and the error is `ErrorText` of the outcome: the non-ok text, the thrown message, or `'Something went wrong'` for an empty message. |
| `App.Page.constructor` | src/App.jsx:12-14 | The page starts with empty frames, the default theme, an empty caption, no tags or overlays, loading off and no error. |
| `App.Page.StartRequest` | src/App.jsx:24-25 | The page's state becomes `Begin` of the old state. |
| `App.Page.CompleteRequest` | src/App.jsx:26-39 | The page's state becomes `Finish` of the old state and the outcome. |
| `App.Page.PickMood` | src/App.jsx:97 | A mood button sets the message being edited to that mood's suggested text. |
| `App.Animate` | src/App.jsx:22-40 | A handler run on the page changes its state as `HandleAnimate` does, and leaves the edited message alone. |
| `App.Greeting` | src/App.jsx:97 | The greetings for romance, gratitude, miss you and apology are "I love you", "Thank you", "I miss you" and "I am sorry". Everything else gets "Let's celebrate!". |
| `App.MoodText` | src/App.jsx:97 | The suggested text is the mood's greeting followed by " — you mean the world to me.". |
| `App.MoodTextsDistinct` | src/App.jsx:94-97 | The five mood buttons suggest five different texts. |
| `App.OrbitEmoji` | src/App.jsx:117 | The orbit shows 🎉 for celebration, 💛 for apology, and 💖 otherwise, including when the theme is missing. |
| `App.OrbitColor` | src/App.jsx:117 | The orbit colour is `#F59E0B` exactly for apology, and `#EC4899` otherwise. |
| `App.OrbitConsistent` | src/App.jsx:117 | The orbit is amber exactly when it shows the yellow heart. A missing theme gets the pink heart. |
| `App.TagsPanelOf` | src/App.jsx:112-114 | Tag chips are shown exactly when the tags are present and non-empty, one chip per tag. Otherwise the placeholder sentence is shown. |
| `App.InitialStateView` | src/App.jsx:12-14 | At mount nothing is loading and there is no error. The orbit is a pink heart, the tag panel shows the placeholder, and the card gets empty frames, the default theme, no caption and no overlays. |
| `App.FailuresKeepLastPayload` | src/App.jsx:32-38 | Any run of failed requests keeps the data it started with, ends with an error text and ends with loading off. |
| `App.LastSuccessWins` | src/App.jsx:22-40 | After a series of requests, the data is the payload of the last successful one. |

## Findings

| source | as written | input that shows it | evidently intended | confidence | as-written member | corrected member |
|---|---|---|---|---|---|---|
| src/components/AnimatedMessage.jsx:110 | The fallback emoji literal is the three characters U+00E2 U+0153 U+00A8 ("âœ¨"). These are the UTF-8 bytes of ✨ read back as Windows-1252. | Any frame without an emoji, for example an empty `frames` list. The card then shows "âœ¨". | The sparkles emoji U+2728 (✨), one character. | not executed; high, since the bytes decode exactly as shown | `MessageCard.EmojiOfAsWritten` (with `MessageCard.FallbackEmojiMisencoded`) | `MessageCard.EmojiOf` (used by `MessageCard.Render`) |

## Left out

- The HTTP request, JSON parsing and the backend URL (src/App.jsx:8, 27-33) are left out. The request is an input: a parsed payload, a non-ok status, or a thrown error with its message. A body that fails to parse is a thrown error.
- Timers are left out. The model has no `setInterval`/`clearInterval`, no effect re-run semantics and no wall-clock time. A timer firing is a `Tick` event, and the running timer is described by its period (`TimerPeriod`). Restarting the timer when the frames or the shown frame's duration change is not modelled as an event. A restart only affects when the next tick comes, never the index.
- The animation library is left out: framer-motion interpolation, easing, `AnimatePresence` enter/exit transitions and the fixed opacity/offset/scale keyframes of overlay glyphs. Motion variants and the confetti rotation are kept only as constant data.
- Floating point is left out. Durations are integer milliseconds, and fractional seconds, NaN and rounding are not modelled. Positions and sizes are exact reals, and the CSS strings built from them are not modelled.
- JSON values of the wrong type or `null` are not modelled, such as a `null` frames list, a non-string theme, a `null` frame inside the list, or a layer without `items`. In JavaScript some of these throw during rendering. The model requires every layer to have an item list.
- Motion names that are built-in object properties (such as `toString`) look up an inherited function whose spread adds no animation props. The model gives no variant for them, like any other unknown name.
- The model does not check for overlapping requests. The submit button is disabled while loading. Still, `Page.StartRequest` and `Page.CompleteRequest` can be interleaved by a caller, and the model states each step but nothing about overlapping runs.
- The prefetch on mount is not a separate member. It is one `Animate` run starting from the initial state.
- Presentation-only code is left out: the hero scene, icons, styling classes, the textarea binding, the submit label and the error `<span>`. The orbit component is purely declarative and is not part of this model.
- The overlay renders the element keys (`key={i}`, `key={idx}`) only as the `layer` and `item` numbers of a glyph. The tag-chip key collisions React would warn about are not modelled.
