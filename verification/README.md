# Portfolio interaction logic, modelled in Dafny

This project models the small amount of interaction logic in a single-page
portfolio site built with React. Everything else in that site is markup
and animation. The model covers:

- **Active-section tracking** (`ActiveSection`, from `Portfolio.tsx`). On each
  scroll tick, the handler walks the fixed ids `home, about, skills, projects,
  contact` in order. Every section whose bounding box straddles the viewport's
  horizontal midline overwrites `activeSection`. There is no early exit, so
  the last qualifying section wins. A tick with no qualifying section keeps the
  old value. The navigation bar highlights the item that equals
  `activeSection`.
- **Pointer tilt**, in three variants:
  - `FloatingCard`: a tilt of up to ±12° measured from the card's centre,
    plus a transform origin chosen by quadrant.
  - `DiagonalBendCard`: a bend of up to ±8° over the pointer position
    normalised to [0,1]², plus the colours and labels of the technology tags.
  - `ModernProjectCard`: a tilt of 0.02° per pixel of offset from the centre,
    with matching image parallax and shadow shift.

  Each variant is a pure function of the pointer and the card's rectangle.
  Each also has a class whose methods update the hover state the way the
  component's event handlers do.
- **Contact forms**:
  - `ContactForm`: the schema's minimum lengths, and the submit cycle that
    steps `isSubmitting` and `isSuccess`.
  - `ModernContactForm`: the schema, the `try`/`finally` submit flag, and the
    focus highlight of one field at a time.
  - `FormErrors`: the error list both forms display, and the form library's
    re-validation of one edited field.
- **Custom cursor** (`CustomCursor`): the pointer position, the two dot
  variants with their fixed offsets, and the trail.

Geometry is `real`, so all arithmetic is exact. A module is pure where the
source computes values. It uses a `class` where the source holds React state
that handlers overwrite. The scroll handler's `forEach` loop is a `while`
loop in `ActiveSection.Tracker.HandleScroll`, proved against the function
`Selected`. The element reference that may still be unset (`cardRef.current`)
is an `Option<Rect>` parameter. When it is `None`, the handler changes
nothing. Timer expiries and the settling of awaited promises are discrete
event methods.

Some facts about the code that the model states:

- The continuous tilt's transform origin takes five values: `center` and the
  four corners.
- The quadrant test uses strict comparisons. A pointer on either centre line,
  the exact centre included, therefore gets "top left", never "center".
- The directional bend is one linear formula on each axis. Its two branches
  compute the same value.
- The tracker walks `home, about, skills, projects, contact`; the last
  qualifying id wins.

Neither form sets a validation mode, so the form library's defaults apply.
Nothing is validated while the user types until the library has recorded a
submission. From then on, every edit re-runs the schema and replaces the
error of the edited field only, until a `reset()` made after that record
clears it. The library records a submission when the submit handler
returns: at once when the schema rejects the values, and only after the
awaited send settles when it accepts them. In `ContactForm` the reset runs
in the follow-up timer, after the handler has returned, so it forgets the
submission. In `ModernContactForm` the reset runs inside the handler, so the
submission is recorded again right after it, and edits to the blank form
are re-validated. A submission the schema rejects focuses the first failing
input in form order. In `ModernContactForm` that input's focus handler
records it as the focused field, so its overlay lights up.

In `ContactForm`, `isSubmitting` stays set throughout the success window. The
button's "Message Sent!" branch is therefore unreachable, and the button reads
"Sending..." until the follow-up timer clears both flags.
`ContactForm.SentLabelUnreachable` and `ContactForm.Form.CurrentLabel` prove
this from the invariant `isSuccess ==> isSubmitting`. `Form.Valid()` holds
that invariant, and every event method preserves it.

## Model

| member | source | states |
|---|---|---|
| `ActiveSection.Tracker.constructor` | client/src/components/Portfolio.tsx:57 | Before any scroll event the active section is "home", one of the tracked ids |
| `ActiveSection.Tracker.HandleScroll` | client/src/components/Portfolio.tsx:64-79 | The loop over the ids leaves the active section equal to the fold `Selected` of the old value, and the state stays one of the five tracked ids |
| `ActiveSection.Straddles` | client/src/components/Portfolio.tsx:74 | The midline test is inclusive: a box whose top or bottom edge lies exactly on the midline straddles it, and a straddling box has top <= bottom |
| `ActiveSection.Qualifies` | client/src/components/Portfolio.tsx:72-74 | An id with no element on the page never qualifies, whatever the geometry; a qualifying id's box has its top above and its bottom below the midline |
| `ActiveSection.Selected` | client/src/components/Portfolio.tsx:70-78 | Folding the ids in order, the result is the previous value or one of the ids, and a changed value names an id that has an element |
| `ActiveSection.SelectedOrigin` | client/src/components/Portfolio.tsx:66-75 | The new active section is either the previous one or an id of the list whose element exists and straddles the midline; ids without an element never become active |
| `ActiveSection.SelectedNoMatch` | client/src/components/Portfolio.tsx:70-78 | If no section qualifies on a tick, the active section is unchanged |
| `ActiveSection.SelectedLastMatch` | client/src/components/Portfolio.tsx:70-76 | When several sections qualify, the result is the last qualifying id in list order (no early exit) |
| `ActiveSection.SelectedIgnoresCurrent` | client/src/components/Portfolio.tsx:70-76 | Once any section qualifies, the result does not depend on the previous active section |
| `ActiveSection.SelectedIdempotent` | client/src/components/Portfolio.tsx:65-78 | Handling the same geometry twice gives the same state as handling it once |
| `ActiveSection.ScrollKeepsLastKnown` | client/src/components/Portfolio.tsx:64-79 | Scenario: a tick where only "about" straddles the midline activates it; a following tick with no match keeps "about" |
| `ActiveSection.NavHighlights` | client/src/components/Portfolio.tsx:130-138 | One style flag per nav item, set exactly for the item equal to the active section |
| `ActiveSection.ExactlyOneNavItemActive` | client/src/components/Portfolio.tsx:130-136 | The nav list equals the tracked list, so for any tracked active section exactly one nav item is highlighted |
| `FloatingCard.QuadrantOrigin` | client/src/components/FloatingCard.tsx:28-37 | The origin is opposite the hovered quadrant (TL gives bottom right, TR bottom left, BL top right); a pointer on a centre line gets top left; never "center" |
| `FloatingCard.Tilt` | client/src/components/FloatingCard.tsx:18-37 | A pointer above the centre gives positive rotateX and below it negative rotateX; right of the centre gives positive rotateY and left of it negative rotateY; the origin is never "center" |
| `FloatingCard.CentreIsFlat` | client/src/components/FloatingCard.tsx:18-25 | A pointer at the exact centre gives rotateX = rotateY = 0 |
| `FloatingCard.TopLeftCorner` | client/src/components/FloatingCard.tsx:24-30 | A pointer at the top-left corner gives rotateX = +12, rotateY = -12, origin bottom right |
| `FloatingCard.TiltBounded` | client/src/components/FloatingCard.tsx:24-25 | For a pointer inside the card both rotations lie within ±12 degrees |
| `FloatingCard.Card.constructor` | client/src/components/FloatingCard.tsx:10 | The style object starts empty |
| `FloatingCard.Card.Rendered` | client/src/components/FloatingCard.tsx:64-68 | An empty style renders with the CSS fallbacks, i.e. neutral (0, 0, center) |
| `FloatingCard.Card.HandleMouseMove` | client/src/components/FloatingCard.tsx:12-44 | With the element reference unset the style is unchanged; otherwise it becomes the tilt computed from the pointer and the rectangle |
| `FloatingCard.Card.HandleMouseLeave` | client/src/components/FloatingCard.tsx:46-52 | Leaving sets 0deg, 0deg, "center" whatever the previous style |
| `DiagonalBendCard.Normalize` | client/src/components/DiagonalBendCard.tsx:25-27 | The stored position times the card size is the pointer's offset from the top-left corner; a pointer inside the card gives a position in [0,1]² |
| `DiagonalBendCard.BendFor` | client/src/components/DiagonalBendCard.tsx:38-65 | Not hovered gives zero rotation whatever the stored position; hovered gives rotateY = (0.5-x)·16 and rotateX = (y-0.5)·16 for every position, i.e. both branches are one formula |
| `DiagonalBendCard.BendReferencePoints` | client/src/components/DiagonalBendCard.tsx:42-54 | (0.5,0.5) gives no bend, (1,0.5) gives rotateY = -8, (0,0.5) gives rotateY = +8 |
| `DiagonalBendCard.BendBounded` | client/src/components/DiagonalBendCard.tsx:42-62 | For a position in [0,1]² both rotations lie within ±8 degrees |
| `DiagonalBendCard.PointerBendBounded` | client/src/components/DiagonalBendCard.tsx:22-29 | A pointer inside the card produces a bend within ±8 degrees |
| `DiagonalBendCard.TagColour` | client/src/components/DiagonalBendCard.tsx:149-151 | A tag's colour is one of blue, green, amber, purple, and every tag from index 3 on is purple |
| `DiagonalBendCard.TagColoursDistinct` | client/src/components/DiagonalBendCard.tsx:149-151 | The first four tags get four different colours |
| `DiagonalBendCard.LowerChar` | client/src/components/DiagonalBendCard.tsx:158 | An ASCII upper-case letter becomes the same letter in lower case; any other character is kept; the result is never an ASCII capital |
| `DiagonalBendCard.ToLower` | client/src/components/DiagonalBendCard.tsx:158 | Lower-casing keeps the length and lower-cases each ASCII capital in place |
| `DiagonalBendCard.ToLowerIdempotent` | client/src/components/DiagonalBendCard.tsx:158 | Lower-casing an already lower-cased name changes nothing |
| `DiagonalBendCard.TagLabel` | client/src/components/DiagonalBendCard.tsx:158 | A tag's text is "#" followed by the lower-cased name, and it has no ASCII capital |
| `DiagonalBendCard.Card.constructor` | client/src/components/DiagonalBendCard.tsx:18-19 | The card starts unhovered at position (0,0), drawn flat |
| `DiagonalBendCard.Card.Transform` | client/src/components/DiagonalBendCard.tsx:84 | An unhovered card is drawn flat |
| `DiagonalBendCard.Card.HandleMouseMove` | client/src/components/DiagonalBendCard.tsx:22-30 | With the element reference unset nothing changes; otherwise the stored position becomes the normalised pointer; the hover flag is untouched |
| `DiagonalBendCard.Card.HandleMouseEnter` | client/src/components/DiagonalBendCard.tsx:81 | Entering sets the hover flag and keeps the stored position |
| `DiagonalBendCard.Card.HandleMouseLeave` | client/src/components/DiagonalBendCard.tsx:32-35 | Leaving clears the hover flag and recentres the position, so re-entering without a move draws the card flat |
| `ModernProjectCard.CentreOffset` | client/src/components/ModernProjectCard.tsx:25-32 | The stored offset is zero exactly at the card's centre, and for a pointer inside the card it lies within half the width and half the height |
| `ModernProjectCard.CardTransform` | client/src/components/ModernProjectCard.tsx:57-59 | Unhovered: no rotation and no lift whatever the offset; hovered: a lift of 20px, and the rotation is zero exactly when the offset is zero |
| `ModernProjectCard.ImageParallax` | client/src/components/ModernProjectCard.tsx:124 | Unhovered: no shift; hovered: the image is raised by 30px |
| `ModernProjectCard.ShadowShift` | client/src/components/ModernProjectCard.tsx:271-273 | The shadow is always pushed back by 20px; unhovered it sits at (0, 15) |
| `ModernProjectCard.ShadowAndParallaxFollowTilt` | client/src/components/ModernProjectCard.tsx:271-273 | Hovered or not, the shadow's shift equals the card's (rotateY, rotateX) with the 15px baseline added, and the image's parallax is half the tilt |
| `ModernProjectCard.TiltBounded` | client/src/components/ModernProjectCard.tsx:26-58 | A pointer inside the card gives \|rotateX\| <= 0.01·height and \|rotateY\| <= 0.01·width |
| `ModernProjectCard.CentreIsFlat` | client/src/components/ModernProjectCard.tsx:26-58 | A pointer at the card's centre gives zero rotation while hovered |
| `ModernProjectCard.Card.constructor` | client/src/components/ModernProjectCard.tsx:18-19 | The card starts unhovered with offset (0,0) |
| `ModernProjectCard.Card.Transform` | client/src/components/ModernProjectCard.tsx:56-62 | An unhovered card is drawn flat |
| `ModernProjectCard.Card.HandleMouseMove` | client/src/components/ModernProjectCard.tsx:22-33 | With the element reference unset nothing changes; otherwise the offset becomes pointer minus card centre |
| `ModernProjectCard.Card.HandleMouseEnter` | client/src/components/ModernProjectCard.tsx:54 | Entering sets the hover flag and keeps the offset |
| `ModernProjectCard.Card.HandleMouseLeave` | client/src/components/ModernProjectCard.tsx:35-38 | Leaving clears the hover flag and the offset, so re-entering without a move gives no tilt |
| `FormErrors.Revalidated` | client/src/components/ContactForm.tsx:25-32 | After an edit of field f, f is reported exactly when the schema's new verdict reports it, with that verdict's message; every other field keeps its old entry |
| `ContactForm.Errors` | client/src/components/ContactForm.tsx:11-16 | Each field is reported iff its rule fails (name < 2, invalid e-mail, subject < 5, message < 10); no errors iff all four rules hold |
| `ContactForm.ButtonDisabled` | client/src/components/ContactForm.tsx:134 | Disabled iff isSubmitting or isSuccess; under the flag invariant, iff isSubmitting |
| `ContactForm.ButtonLabel` | client/src/components/ContactForm.tsx:137-149 | "Sending..." iff isSubmitting; "Message Sent!" iff isSuccess without isSubmitting |
| `ContactForm.SentLabelUnreachable` | client/src/components/ContactForm.tsx:137-149 | Under isSuccess ==> isSubmitting the label is never "Message Sent!", and it reads "Sending..." exactly when the button is disabled |
| `ContactForm.Form.constructor` | client/src/components/ContactForm.tsx:21-32 | Both flags start false, nothing pending, blank values, no errors and no submission yet |
| `ContactForm.Form.CurrentLabel` | client/src/components/ContactForm.tsx:137-149 | In every reachable state the label is not "Message Sent!" |
| `ContactForm.Form.Input` | client/src/components/ContactForm.tsx:72-127 | An edit changes only the edited input; before a submission the errors are kept; after one, the edited field is reported exactly when its rule now fails, and every other field's error is kept; the flags and the pending timer are untouched |
| `ContactForm.Form.HandleSubmit` | client/src/components/ContactForm.tsx:30-35 | The schema runs first; with no errors isSubmitting is set, the send delay starts and the submission is not yet recorded; otherwise the flags stay clear and the submission is recorded at once |
| `ContactForm.Form.SendDelayElapsed` | client/src/components/ContactForm.tsx:34-50 | After the delay isSuccess is set, isSubmitting stays true and the follow-up timer starts; the handler returns, so the submission is recorded |
| `ContactForm.Form.SendDelayRejected` | client/src/components/ContactForm.tsx:51-58 | On failure isSubmitting clears, isSuccess is untouched and the form is not reset; the handler returns, so the submission is recorded |
| `ContactForm.Form.ResetDelayElapsed` | client/src/components/ContactForm.tsx:46-50 | The follow-up timer clears both flags and resets the form, which clears the errors and forgets the submission |
| `ModernContactForm.Errors` | client/src/components/ModernContactForm.tsx:8-12 | Each field is reported iff its rule fails (name < 2, invalid e-mail, message < 10; no subject); no errors iff all three hold; the first entry is the first failing field in form order |
| `ModernContactForm.OverlayFor` | client/src/components/ModernContactForm.tsx:135-138 | A field's overlay shows (opacity 0.3, scale 1) iff it is the focused field, and is (0, 0.95) otherwise |
| `ModernContactForm.AtMostOneHighlight` | client/src/components/ModernContactForm.tsx:132-198 | If some overlay shows, a field is focused and no other field's overlay shows |
| `ModernContactForm.ButtonLabel` | client/src/components/ModernContactForm.tsx:213-220 | The label reads "Sending..." exactly when isSubmitting holds |
| `ModernContactForm.Form.ButtonDisabled` | client/src/components/ModernContactForm.tsx:208 | The button is disabled exactly when its label reads "Sending..." |
| `ModernContactForm.Form.constructor` | client/src/components/ModernContactForm.tsx:17-28 | Not submitting, no focused field, blank values, no errors and no submission yet |
| `ModernContactForm.Form.Input` | client/src/components/ModernContactForm.tsx:124-189 | An edit changes only the edited input; before a submission the errors are kept; after one, the edited field is reported exactly when its rule now fails, and every other field's error is kept; focus is untouched |
| `ModernContactForm.Form.Focus` | client/src/components/ModernContactForm.tsx:129 | Focus sets the focused field; that field's overlay shows and every other is hidden |
| `ModernContactForm.Form.Blur` | client/src/components/ModernContactForm.tsx:130 | Blur clears the focused field whichever it was; every overlay is hidden |
| `ModernContactForm.Form.HandleSubmit` | client/src/components/ModernContactForm.tsx:21-31 | The schema runs first; isSubmitting is set iff it reports no errors, and then the submission is not yet recorded; otherwise the submission is recorded at once and the first failing input in form order becomes the focused field, the only one highlighted |
| `ModernContactForm.Form.SendSettled` | client/src/components/ModernContactForm.tsx:30-49 | isSubmitting is false afterwards on both paths; only success resets the form to blank values without errors; on both paths the submission is recorded when the handler returns, after the reset |
| `CustomCursor.DotTarget` | client/src/components/CustomCursor.tsx:37-50 | Default (x-10, y-10) at scale 1, hover (x-15, y-15) at scale 1.5: the offset equals half the scaled 20px diameter; the default dot is centred on the pointer, the hover dot's centre is 5px up and left of it |
| `CustomCursor.TrailTarget` | client/src/components/CustomCursor.tsx:67-70 | The trail sits at (x-4, y-4), centred for its 8px size, whatever the variant |
| `CustomCursor.HoverShift` | client/src/components/CustomCursor.tsx:37-50 | The hover dot sits 5px further up and left than the default dot |
| `CustomCursor.Cursor.constructor` | client/src/components/CustomCursor.tsx:5-6 | The cursor starts at (0,0) with the default variant |
| `CustomCursor.Cursor.Dot` | client/src/components/CustomCursor.tsx:54-57 | The dot's placement is the stored position minus half the dot's scaled diameter on both axes |
| `CustomCursor.Cursor.Trail` | client/src/components/CustomCursor.tsx:65-70 | The trail's placement is the stored position minus 4px on both axes |
| `CustomCursor.Cursor.MouseMove` | client/src/components/CustomCursor.tsx:9-14 | A move stores the exact client coordinates and keeps the variant |
| `CustomCursor.Cursor.MouseEnter` | client/src/components/CustomCursor.tsx:16 | Entering an interactive element sets the hover variant |
| `CustomCursor.Cursor.MouseLeave` | client/src/components/CustomCursor.tsx:17 | Leaving an interactive element sets the default variant |

## Left out

- DOM and listener plumbing is not modelled. This covers `addEventListener`/`removeEventListener`, `getElementById`, `getBoundingClientRect`, `querySelectorAll` and `scrollIntoView`. Bounding boxes and events are inputs. `scrollToSection` (Portfolio.tsx:85-90) only scrolls the view, so it is left out.
- The unused `scrollY` read and the one-second loading screen (Portfolio.tsx:59-62, 67, 92-107) are a timer and markup, so they are left out.
- Browser numbers are IEEE doubles, but the model uses exact reals. Rounding, NaN and infinities are not modelled.
- FloatingCard.Tilt requires a rectangle with positive width and height, because the source divides by half the height and half the width. The same applies to `FloatingCard.Card.HandleMouseMove`, `DiagonalBendCard.Normalize` and `DiagonalBendCard.Card.HandleMouseMove`. A zero-sized card would give NaN or infinite angles in the browser.
- CSS strings are not modelled, only their numeric values. This covers `${rotateX}deg`, `perspective(1000px)` and the transition durations and easings. The transform origin is a datatype instead of a keyword string.
- Animation libraries are foreign code and are not modelled. This covers framer-motion's tweening, springs, `whileHover`/`whileTap` and mix-blend mode. A placement is the target the library animates towards.
- Randomised or trigonometric decoration carries no state worth stating, so it is not modelled. This covers the `Math.random` particles and stars in ModernProjectCard.tsx and ModernContactForm.tsx. The rotating planet scene and the purely presentational components are not part of this model: RotatingPlanet.jsx, GeometricShape.tsx, HexagonalSkill.tsx, ProjectCard.tsx, SkillCard.tsx, SpecialtyCard.tsx and ExperienceCard.jsx.
- The realtime content store is not part of this model. None of the modelled files subscribes to it. The skills and projects in Portfolio.tsx are static literals.
- The e-mail address check belongs to the schema library. It is the parameter `isEmail`. String lengths count `char`s, which match JavaScript's UTF-16 code units only for the basic plane.
- The form library's internals are outside the model. `register` is reduced to the `Input` methods, one input edited at a time. Its validation defaults are modelled as stated above: no validation before the first submission, re-validation of the edited field on every change after it. `reset()` is modelled as restoring blank values, clearing the errors and forgetting the submission. Moving focus to the first invalid input is modelled only where focus is state, in `ModernContactForm`.
- Toast notifications are not modelled. In `ContactForm.onSubmit`, a throw from `toast()` after `setIsSuccess(true)` would reach the `catch` with `isSuccess` already set, and the model does not capture that. `ContactForm.Form.SendDelayRejected` models the `catch` branch as the awaited delay rejecting. In the browser, a plain timeout promise never rejects.
- Both forms' `HandleSubmit` methods require the submit button to be enabled, because a disabled submit button blocks submission. A second submission while a send is pending is therefore not modelled.
- DiagonalBendCard.LowerChar, DiagonalBendCard.ToLower and DiagonalBendCard.TagLabel lower-case only the ASCII letters A-Z. JavaScript's `toLowerCase` also folds non-ASCII capitals, such as É to é. For some capitals it also changes the length: İ (U+0130) becomes two UTF-16 code units. So the model's "keeps the length" holds in the browser only for names without such letters.
- DiagonalBendCard.tsx uses `useState` and `useRef` without importing them (lines 1-2). The model gives them their ordinary React meaning.
- The custom cursor attaches its hover listeners only to the interactive elements present at mount. Elements added later never switch the variant, and the model does not track which elements have listeners.
- Teardown of the listeners on unmount is not modelled.
