# Roy Review System — a Dafny model

The review page has a Yes and a No button. A No opens a
confirmation dialog whose prompt escalates with every further No. From the
third No the No button shrinks, and from the fifth the Yes button grows. A Yes,
on the page or in the dialog, shows the next entry of a cyclic catalogue of
congratulations in a success overlay. A small Node server serves the page's
files.

This project models two parts:

- the page's escalation controller (`script.js`);
- the decision the static server's request handler makes (`server.js`).

It proves properties of both.

- `escalation.dfy`, module `Escalation`, holds the controller as values. It has
  the two catalogues and the `Page` record: the two counters plus the DOM state
  the handlers write. It has one function per handler and the `Step`/`Run`
  replay of user events. `Consistent` is the invariant every event keeps. The
  trace lemmas cover the prompt after n No clicks, the payload of the k-th Yes,
  the thresholds and monotonicity.
- `review_page.dfy`, module `ReviewUi`, holds the class `Controller`. Its fields
  are the script's `let` counters and the DOM properties, and it has one method
  per handler. Each method updates the fields in place. It is proved to produce
  the page its `Escalation` function describes and to keep `Valid()`.
- `static_server.dfy`, module `StaticServer`, models the request handler as
  pure functions. The URL is mapped to a path, then comes the root-prefix
  guard, then the default `.html` extension, then the MIME table and the
  Cache-Control choice, then the mapping from read errors to statuses. Node's
  `path.normalize`, `path.join`, `path.resolve` and `path.extname` are
  arbitrary functions passed in (`NodePath`). The file system is a function
  from the path read to a `ReadResult`.

The code has no persistence of `yesClickCount`, no counter reset, no second
"repeat" success catalogue, no reduced-motion check, no sound on dialog-No and
no annoyance slider, so none of these is modelled. The header comment says the
No button "runs away", but the code never moves it (script.js:122), so the
model does not either.

## Model

| member | source | states |
|---|---|---|
| Escalation.Loaded | script.js:37-38 | the page as loaded has both counters at 0, the dialog closed, the overlay hidden, and is consistent |
| Escalation.SuccessIndex | script.js:91 | the catalogue index of a Yes is in bounds and is the residue of the earlier Yes count modulo 10 |
| Escalation.EscalatingIndex | script.js:110 | the prompt index of a No is in bounds and is the residue of (count - 1) modulo 14 |
| Escalation.OverlayShown | script.js:152-155 | showing the overlay makes it active with aria-hidden "false" and changes nothing else |
| Escalation.OverlayHidden | script.js:157-160 | hiding the overlay makes it inactive with aria-hidden "true", changes nothing else and keeps a consistent page consistent |
| Escalation.Escalated | script.js:124-134 | `shrinking` is present afterwards iff it was before or the count is at least 3, `growing` likewise with 5; nothing else changes |
| Escalation.YesClicked | script.js:89-103 | a Yes shows entry (earlier Yes count mod 10), raises the Yes counter by 1, opens the overlay, leaves the No counter, dialog and classes alone, and keeps consistency |
| Escalation.NoClicked | script.js:106-116 | a No raises the No counter by 1, opens the dialog on prompt (earlier No count mod 14), never removes a class, leaves the Yes side alone, and keeps consistency |
| Escalation.ModalYesClicked | script.js:137-140 | a dialog Yes closes the dialog and otherwise has exactly the effect of a main Yes |
| Escalation.ModalNoClicked | script.js:142-149 | a dialog No raises the No counter by 1, shows the next prompt, leaves the dialog's open state and the Yes side alone, and keeps consistency |
| Escalation.Step | script.js:73-82 | cancel leaves the page unchanged; only No events raise the No counter (by 1) and only Yes events the Yes counter (by 1); classes are never removed; consistency is kept |
| Escalation.RunCounts | script.js:89-149 | over any event sequence each counter rises by exactly the number of its own clicks |
| Escalation.RunMonotone | script.js:89-149 | no event sequence lowers a counter or removes `shrinking` or `growing` |
| Escalation.RunConsistent | script.js:89-160 | every event sequence keeps the page consistent: flags match thresholds, the dialog shows the latest No's prompt, the overlay the latest Yes's payload, aria-hidden matches `active` |
| Escalation.MessageAfterDeclines | script.js:106-112 | after n >= 1 No clicks since load, the dialog shows prompt (n - 1) mod 14 |
| Escalation.FlagsAfterDeclines | script.js:124-134 | since load, `shrinking` is on iff there were at least 3 No clicks and `growing` iff at least 5; aria-hidden always agrees with `active` |
| Escalation.KthYesShowsEntry | script.js:89-97 | the k-th Yes since load (from 0, either button) shows success entry k mod 10 and opens the overlay |
| Escalation.DialogNoAdvances | script.js:142-149 | a dialog No moves the shown prompt to the next entry, wrapping from the last to the first |
| Escalation.HideIdempotent | script.js:157-160 | hiding the overlay twice is the same as hiding it once |
| Escalation.DeclineFourThenAccept | script.js:106-149 | one No, three dialog Nos and then a dialog Yes leave prompt 3 shown, counters 4 and 1, `shrinking` on, `growing` off, the dialog closed and success entry 0 in the open overlay |
| ReviewUi.Controller.constructor | script.js:37-38 | the controller starts as the loaded page and is valid |
| ReviewUi.Controller.ShowSuccessOverlay | script.js:152-155 | sets `active` and aria-hidden "false" in place, exactly as OverlayShown |
| ReviewUi.Controller.HideSuccessOverlay | script.js:157-160 | clears `active` and sets aria-hidden "true" in place, exactly as OverlayHidden, keeping validity |
| ReviewUi.Controller.ApplyEscalatingBehavior | script.js:124-134 | adds the classes whose thresholds the count has reached, never removes one, exactly as Escalated |
| ReviewUi.Controller.HandleYesClick | script.js:89-103 | Yes counter +1, No counter unchanged, overlay texts are entry (old count mod 10), overlay open; exactly YesClicked, keeping validity |
| ReviewUi.Controller.HandleNoClick | script.js:106-116 | No counter +1, Yes counter unchanged, dialog open on prompt (old count mod 14); exactly NoClicked, keeping validity |
| ReviewUi.Controller.HandleModalYes | script.js:137-140 | closes the dialog, then acts as a main Yes; exactly ModalYesClicked, keeping validity |
| ReviewUi.Controller.HandleModalNo | script.js:142-149 | No counter +1, dialog open state unchanged, next prompt shown; exactly ModalNoClicked, keeping validity |
| ReviewUi.Controller.HandleDialogCancel | script.js:79-80 | the prevented cancel changes nothing |
| ReviewUi.Controller.Dispatch | script.js:73-82 | each user event reaches the handler `init` registers for it, so the page moves as Step says and stays valid |
| StaticServer.BeforeQuery | server.js:29 | `split('?')[0]` is the longest '?'-free prefix: a prefix without '?', followed by '?' or the end |
| StaticServer.UrlPath | server.js:29 | exactly "/" becomes "/index.html"; any other URL is cut before its first '?' |
| StaticServer.ContentType | server.js:12-25 | the table's type for the 12 listed extensions, and octet-stream exactly for the others |
| StaticServer.CacheControl | server.js:58-62 | "no-cache" exactly for ".html", "public, max-age=60" for every other extension, the empty one included |
| StaticServer.RouteOf | server.js:28-41 | refused iff the resolved path does not start with the resolved root; otherwise the extension is that of the joined path, and ".html" is appended to the path read exactly when that extension is empty |
| StaticServer.Respond | server.js:43-64 | ENOENT gives 404 "Not found", any other error 500 "Server error", both without headers; a read file gives 200 with its bytes and exactly the two headers chosen from the extension |
| StaticServer.Handle | server.js:27-66 | 403 "Forbidden" exactly for refused requests; otherwise the response is the read callback's for the routed path and extension |
| StaticServer.ForbiddenReadsNothing | server.js:32-38 | a refused request gets 403 whatever the file system holds, so no file is read |
| StaticServer.ExtensionlessServedAsOctetStream | server.js:40-62 | an extensionless request whose ".html" file is found is served with 200, octet-stream and the sixty-second cache |
| StaticServer.StylesheetHeaders | server.js:55-62 | a ".css" file that is found is served as text/css with the sixty-second cache |
| StaticServer.RootWithQueryIsNotIndex | server.js:29 | "/?" followed by any query maps to "/", not to "/index.html" |
| StaticServer.GuardAdmitsStringExtensions | server.js:32-41 | the guard is a string prefix test: every request whose resolved path extends the resolved root as a string is admitted, sibling directories such as "/srv/site-old" under a root "/srv/site" included |

## Left out

- Confetti (script.js:162-211): floating-point particle motion, `Math.random` and canvas drawing are not modelled.
- Approval meter easing (script.js:214-233): floating-point animation on `requestAnimationFrame` is not modelled.
- Web Audio (script.js:236-270): creating the audio context and playing the success tone are browser calls and are not modelled.
- DOM wiring is abstracted to the state it writes. `showModal()` and `close()` are the dialog's open flag, and `classList.add`/`remove` are booleans.
- The markup (index.html) is not part of this model. The initial dialog and overlay texts are constructor parameters. The page is assumed to load with the dialog closed, the overlay hidden with aria-hidden "true", and no `shrinking` or `growing` class.
- The server's I/O is not modelled: `fs.readFile`, `writeHead`/`end`, `server.listen`, the `PORT` lookup and the headers Node adds by itself.
- Counters: the model's counters are unbounded naturals, while the script's `noClickCount` and `yesClickCount` are JavaScript Numbers whose `++` stops changing the value at 2^53. Beyond that many clicks the script's counters, prompt and payload indices freeze, and RunCounts, KthYesShowsEntry and MessageAfterDeclines hold only of the unbounded model.
- Node's `path.normalize`, `path.join`, `path.resolve` and `path.extname` are not modelled. They are arbitrary functions, so no property depends on how Node computes them. `PUBLIC_DIR` is a parameter.
