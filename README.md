# Chocolat and SM_Filter, modelled in Dafny

This project models the two stateful components of the site's behaviour script
`swfiles/includes/pagecomps_2.js` and proves properties of them.

- Chocolat is an image lightbox. The model covers:
  - the index bookkeeping of `init`, `load` and `change`;
  - the arrow-activation rule;
  - the zoom save/restore pair;
  - the registry of DOM listeners that `on`, `off`, `attachListeners` and `destroy` maintain.

  DOM elements are ids (`Document`, `Window`, gallery anchor `Link(i)`, and `Part(role, generation)` for the elements one `markup()` round builds). A listener is named by the handler it runs. Whether the browser decoded an image is a parameter, so one `load` is modelled as if its promise chain ran at once.
- SM_Filter is a load-more and filter controller over a server-rendered overview. The model covers:
  - the options merge `_deepMerge` over a JSON-like datatype, with the built-in defaults;
  - the category linking of `_formatFilters`, in place on category objects;
  - the `list_filters` string and the other start-up fixes of `rendersettings`;
  - the load-more probe;
  - the filter and load-more click transitions;
  - what `loadEntries` does to the overview, the load-more button and the change listeners, given the server's answer;
  - the named event bus;
  - the environment classification of `checkEnvironment`, and the endpoint it selects.

  The overview is a list of pieces: server fragments and the "no results" message. A server answer is an input value, `Received(Response(html, empty))` or `Failed`.

Files:

- `wrappers.dfy`: Option and Result.
- `seqs.dfy`: the `filter(x => x !== y)` of SM_Filter's `removeListener`, also used for taking the message out of the overview. Chocolat's `off` splices with `findIndex` instead and is modelled in `chocolat.dfy`.
- `chocolat.dfy`: the lightbox.
- `options.dfy`: JSON values, `_deepMerge`, the defaults.
- `environment.dfy`: `checkEnvironment`.
- `categories.dfy`: `_formatFilters`.
- `bus.dfy`: the event bus.
- `filter.dfy`: the SM_Filter controller.

## Model

| member | source | states |
|---|---|---|
| Seqs.Without | swfiles/includes/pagecomps_2.js:1976-1978 | The filtered list has no occurrence of the listener. Every element it holds was in the input, every other element of the input stays, and a list without that listener comes back unchanged. |
| Seqs.WithoutConcat | swfiles/includes/pagecomps_2.js:1976-1978 | Filtering distributes over concatenation, so the kept elements keep their relative order. |
| Seqs.WithoutCounts | swfiles/includes/pagecomps_2.js:1976-1978 | Filtering keeps the number of occurrences of every other element and leaves none of the removed one. |
| Chocolat.FindIndex | swfiles/includes/pagecomps_2.js:663-667 | `findIndex` gives the first record whose element and event name both match, or -1 when none does. |
| Chocolat.Unbind | swfiles/includes/pagecomps_2.js:663-673 | `off` leaves the registry unchanged when nothing matches; otherwise it removes exactly one record. |
| Chocolat.UnbindRemovesFirstMatch | swfiles/includes/pagecomps_2.js:663-673 | `off` splices out exactly the first matching record. The records before and after it stay in order, and as a multiset the registry loses just that record. |
| Chocolat.UnbindAfterBind | swfiles/includes/pagecomps_2.js:653-673 | `on` and then `off` of the same element and event name restores a registry that had no such record. |
| Chocolat.AnchorBindings | swfiles/includes/pagecomps_2.js:196-208 | Built from anchors, the registry holds one `click.chocolat` record per anchor, in anchor order, each opening its own index. |
| Chocolat.ChangeTarget | swfiles/includes/pagecomps_2.js:366-385 | With an undefined current index the request is NaN. Otherwise, when first <= last, any index `change` loads lies in [first, last]. |
| Chocolat.ChangeRule | swfiles/includes/pagecomps_2.js:372-384 | Within [first, last], `change` loads current+step. Above last it loads first when looping and nothing otherwise. Below first it loads last when looping and nothing otherwise. |
| Chocolat.ArrowState | swfiles/includes/pagecomps_2.js:387-398 | With `loop`, both arrows are active. Otherwise, with `linkImages`, the right arrow is active exactly when the index is not the last and the left exactly when it is not the first, whatever the index. Without either, neither is. |
| Chocolat.ArrowsMatchNavigation | swfiles/includes/pagecomps_2.js:366-398 | When `loop` or `linkImages` is set, the right (left) arrow is active exactly when `change(+1)` (`change(-1)`) would load an image. |
| Chocolat.LoadOutcome | swfiles/includes/pagecomps_2.js:284-317 | Requesting the current index returns early. An index with no image (out of range or NaN) is `NoSuchImage`. Any other index is displayed exactly when its image decodes, and only such an index can be displayed. |
| Chocolat.OrElse | swfiles/includes/pagecomps_2.js:647 | `a \|\| b`: a non-empty saved size wins; null or the empty string falls back to `b`. |
| Chocolat.Lightbox.constructor | swfiles/includes/pagecomps_2.js:181-213 | The images come from a NodeList of anchors or the given objects. Every state flag and both arrow flags start false, nothing is current, and the registry holds exactly the anchor records. |
| Chocolat.Lightbox.On | swfiles/includes/pagecomps_2.js:653-661 | Appends exactly one `{element, eventName, cb}` record at the end. |
| Chocolat.Lightbox.Off | swfiles/includes/pagecomps_2.js:663-673 | The registry becomes `Unbind` of the old one, and stays as it was when nothing matches. |
| Chocolat.Lightbox.Rebind | swfiles/includes/pagecomps_2.js:509-511 | An `off`/`on` pair on an unbound pair appends exactly one record. |
| Chocolat.Lightbox.Markup | swfiles/includes/pagecomps_2.js:442-507 | Each markup round builds a fresh set of parts. |
| Chocolat.Lightbox.RebindPart | swfiles/includes/pagecomps_2.js:522-570 | Rebinding a part of the latest round that has no record yet appends one click record and marks the part bound. |
| Chocolat.Lightbox.AttachListeners | swfiles/includes/pagecomps_2.js:509-630 | Appends the standard records in binding order: keydown, right, left, close, fullscreen, the overlay only with `closeOnBackgroundClick`, wrapper, image wrapper, mousemove, resize. |
| Chocolat.Lightbox.AttachControls | swfiles/includes/pagecomps_2.js:509-542 | The keydown record and the four button records, in order. |
| Chocolat.Lightbox.AttachZoom | swfiles/includes/pagecomps_2.js:544-630 | The optional overlay record, then the zoom, pan and resize records, in order. |
| Chocolat.Lightbox.Init | swfiles/includes/pagecomps_2.js:258-268 | The first call builds the markup once, binds the standard records, and sets `lastImageIndex = images.length - 1` and `initialized`. Later calls only load. Visibility, fullscreen, the current index and the arrows then are what `Load` gives for index `i`; the zoom state is untouched. |
| Chocolat.Lightbox.Load | swfiles/includes/pagecomps_2.js:270-318 | The lightbox becomes visible and fullscreen follows the API. The current index changes only when the image is displayed, and then the arrows match the new index. |
| Chocolat.Lightbox.Arrows | swfiles/includes/pagecomps_2.js:387-398 | The two arrow flags become `ArrowState` of the current index. |
| Chocolat.Lightbox.Change | swfiles/includes/pagecomps_2.js:366-385 | When not visible, nothing changes. Otherwise it zooms out, then loads `ChangeTarget` or stays put, and the lightbox stays visible. The current index moves only to a displayed target, and the arrows then match it. Fullscreen follows the API only when a load happened. |
| Chocolat.Lightbox.Close | swfiles/includes/pagecomps_2.js:400-416 | An open fullscreen is left first and the lightbox stays visible. Otherwise the lightbox is hidden. |
| Chocolat.Lightbox.ZoomIn | swfiles/includes/pagecomps_2.js:640-644 | Saves the image size and switches to `native`. |
| Chocolat.Lightbox.ZoomOut | swfiles/includes/pagecomps_2.js:646-651 | Restores the saved size (or keeps the current one when nothing was saved) and clears the saved state. |
| Chocolat.Lightbox.HandleKeydown | swfiles/includes/pagecomps_2.js:511-520 | Before initialisation no key changes anything, and afterwards only keys 37, 39 and 27 do; the registry is never touched. Key 27 has the effect of `close` and keeps the current index, the zoom state and the arrows. Keys 37 and 39 do nothing when hidden. When visible they zoom out and move to the displayed `ChangeTarget` of step -1 or +1, with fullscreen and the arrows as `change` sets them. |
| Chocolat.Lightbox.ImageClick | swfiles/includes/pagecomps_2.js:561-570 | Zooms in only when not zoomed and zoomable; otherwise changes nothing. |
| Chocolat.Lightbox.WrapperClick | swfiles/includes/pagecomps_2.js:549-560 | Zooms out only when zoomed and visible; otherwise changes nothing. |
| Chocolat.Lightbox.Destroy | swfiles/includes/pagecomps_2.js:418-440 | The registry ends empty whether or not the lightbox was initialised. When it was, the current index becomes undefined, visible and initialised become false, and fullscreen is left. When it was not, every other field stays. Zoom state, arrows, `lastImageIndex` and the markup round never change. |
| Chocolat.ZoomRoundTrip | swfiles/includes/pagecomps_2.js:640-651 | For a non-empty image size, `zoomIn` then `zoomOut` gives back the original size and leaves no saved zoom state. An empty size comes back as `native`, because `'' \|\| 'native'` is `'native'`. |
| Options.Merged | swfiles/includes/pagecomps_2.js:1689-1716 | Merging into an array gives as many items as the longer of target and option. Merging into an object gives exactly the union of both key sets. |
| Options.DeepMerge | swfiles/includes/pagecomps_2.js:1689-1716 | The copy-then-overlay loops of `_deepMerge` compute `Merged`. |
| Options.MergeIntoArray | swfiles/includes/pagecomps_2.js:1693-1713 | The array branch: copy the items, then merge or append each option item by index. |
| Options.MergeIntoObject | swfiles/includes/pagecomps_2.js:1698-1713 | The object branch: copy the properties, then merge or overwrite each option property. |
| Options.MergeFieldRule | swfiles/includes/pagecomps_2.js:1705-1711 | A property missing from the option keeps the target's value. An option over a plain value replaces it. An option over an object or array merges into it, so a containing default keeps its kind. |
| Options.MergeArrayByIndex | swfiles/includes/pagecomps_2.js:1693-1711 | An array option of plain values overwrites the leading defaults index by index, and the remaining defaults stay. |
| Options.MergeNothing | swfiles/includes/pagecomps_2.js:1704-1712 | An option with no enumerable property leaves the target as it is. |
| Options.MergeableSelf | swfiles/includes/pagecomps_2.js:1689-1716 | Any value can be merged into itself within the model. |
| Options.MergeIdempotent | swfiles/includes/pagecomps_2.js:1689-1716 | Merging a value into itself gives that value back. |
| Options.Defaults | swfiles/includes/pagecomps_2.js:1601-1635 | The built-in defaults object. |
| Options.Resolve | swfiles/includes/pagecomps_2.js:1637 | Falsy options give the defaults. Otherwise the result is an object with at least every top-level default key; the options must follow the one-key-per-property convention of `Canonical`. |
| Environment.Classify | swfiles/includes/pagecomps_2.js:1570-1586 | cms exactly when `page` is `vcmspage.php`. design exactly when not cms, the path includes `preview.php` and `layID` is present. Local exactly for cms or design. preview exactly when not local and the host includes `sitemn.gr`. The base URL is host + project path. |
| Environment.ClassifyLive | swfiles/includes/pagecomps_2.js:1575-1583 | live is exactly the case in which none of the three tests holds. |
| Environment.LoadmoreUrl | swfiles/includes/pagecomps_2.js:1660 | Local pages use the CMS endpoint. Otherwise the URL is `//`, then exactly the base URL (host and project path), then `swfiles/lib/loadmore.php`. |
| Categories.Children | swfiles/includes/pagecomps_2.js:1719 | The filter never yields more categories than the list holds. |
| Categories.ChildrenMembership | swfiles/includes/pagecomps_2.js:1719 | A category is a child exactly when it is in the list and its `prev_category` is the id. |
| Categories.ChildrenConcat | swfiles/includes/pagecomps_2.js:1719 | The children keep the input order. |
| Categories.FirstWithId | swfiles/includes/pagecomps_2.js:1720 | `find` gives the first category with that id, or nothing when there is none. |
| Categories.Root | swfiles/includes/pagecomps_2.js:1720 | With a truthy `parent`, the result is a category with that id, or undefined when none has it. Otherwise it is the first category. |
| Categories.FormatFilters | swfiles/includes/pagecomps_2.js:1718-1721 | Afterwards every category's `sub_categories` is exactly its children in input order, and the result is `Root`. |
| Bus.Subscribe | swfiles/includes/pagecomps_2.js:1963-1969 | `on` creates the list when the name is missing and appends the listener. Other names are untouched. |
| Bus.Unsubscribe | swfiles/includes/pagecomps_2.js:1971-1979 | For an unregistered name it throws `Can't remove a listener. Event "<name>" doesn't exits.`. Otherwise that list becomes `Without` of it, so the listener is gone and the others keep their order; the set of names is unchanged and other names are untouched. |
| Bus.Dispatch | swfiles/includes/pagecomps_2.js:1981-1991 | For an unregistered name it throws `Can't emit an event. Event "<name>" doesn't exits.`. Otherwise it calls every listener once, with the data, in registration order. |
| Bus.SubscribeThenDispatch | swfiles/includes/pagecomps_2.js:1963-1991 | After `on(name, l)`, `emit(name, d)` makes the earlier calls and then calls `l`. |
| Bus.SubscribeOtherName | swfiles/includes/pagecomps_2.js:1963-1991 | `on` under one name does not change what `emit` does for another. |
| Bus.UnsubscribeKeepsOthers | swfiles/includes/pagecomps_2.js:1971-1979 | `removeListener` deletes every occurrence of the listener and keeps every other listener with its number of registrations. |
| Bus.SubscribeThenUnsubscribe | swfiles/includes/pagecomps_2.js:1963-1979 | `on` then `removeListener` of the same listener drops all its registrations, but the name stays registered. |
| Filter.ListFilters | swfiles/includes/pagecomps_2.js:1651 | Every selected filter contributes its five-character ` AND ` tail. |
| Filter.ListFiltersConcat | swfiles/includes/pagecomps_2.js:1651 | The clauses appear in the order of the selected filters. |
| Filter.ListFiltersShape | swfiles/includes/pagecomps_2.js:1651 | The string is empty exactly when no filter is selected, and otherwise ends with ` AND `. |
| Filter.Prepared | swfiles/includes/pagecomps_2.js:1651-1655 | A non-empty `list_filters` from the server is kept; otherwise it is built from the selected filters. `sw_var_lid` falls back to the global, `session` becomes false, and the paging fields are untouched. |
| Filter.ProbeRequest | swfiles/includes/pagecomps_2.js:1826-1836 | With `list_nr` 0 nothing is requested. Otherwise the probe is the start snapshot with `pageno = list_nr + 1` and `list_nr = 1`. |
| Filter.ProbeAsksForNextEntry | swfiles/includes/pagecomps_2.js:1833-1834 | Under offset paging the probe asks for exactly one entry, the first after the entries of the first page. |
| Filter.ProbeHidden | swfiles/includes/pagecomps_2.js:1828-1848 | The button is hidden with `list_nr` 0. After an answer it is hidden exactly when the answer's `html` is empty. A failed probe leaves it as it was. |
| Filter.FilterSettings | swfiles/includes/pagecomps_2.js:1897-1898 | The start snapshot with ` AND cat_<id>` appended to `list_cat`, and nothing else changed. |
| Filter.FilterClicksDoNotAccumulate | swfiles/includes/pagecomps_2.js:1897-1898 | A filter click resets the page number. Two clicks give different settings exactly when their ids differ, so no earlier click leaves a trace. |
| Filter.LoadEffect | swfiles/includes/pagecomps_2.js:1916-1957 | The whole outcome of `loadEntries` once the answer is in. A rejected request changes nothing. With load-more active and no button, the callback stops at the first use of the button: an empty answer leaves the overview cleared with nothing reported; a page is inserted and reported, and the message and its flag stay. |
| Filter.Notify | swfiles/includes/pagecomps_2.js:1932-1951 | Listeners are called only when a `change` list exists, and then in registration order. |
| Filter.LoadedEntries | swfiles/includes/pagecomps_2.js:1925-1944 | Non-empty `html`: 'add' keeps the old entries without the message and appends the fragment; 'replace' shows only the fragment. The message is gone. With load-more active, the button is hidden exactly when `data.empty`. |
| Filter.LoadedNothing | swfiles/includes/pagecomps_2.js:1945-1955 | Empty `html`, with the button present or load-more inactive: the overview becomes just the message and `this.error` is set, and listeners receive 'empty'. With load-more active the button is hidden; otherwise it is left as it was. |
| Filter.LoadNotifies | swfiles/includes/pagecomps_2.js:1932-1951 | Listeners receive the load type for a page and 'empty' for an empty answer. |
| Filter.LoadKeepsWellFormed | swfiles/includes/pagecomps_2.js:1916-1957 | Whatever the answer, the message appears at most once, and only while `this.error` is set. |
| Filter.PageKeepsWellFormed | swfiles/includes/pagecomps_2.js:1925-1944 | The page branch never adds a message. |
| Filter.LoadFailureChangesNothing | swfiles/includes/pagecomps_2.js:1956 | A rejected request changes nothing and calls no listener. |
| Filter.Controller.constructor | swfiles/includes/pagecomps_2.js:1589-1679 | Options are resolved and the start snapshot is `Prepared`. The endpoint follows the environment, the bus starts empty, and the button exists only with load-more active and a parent found, after the probe. |
| Filter.Controller.CheckLoadmore | swfiles/includes/pagecomps_2.js:1826-1849 | Sends `ProbeRequest` of the start snapshot and sets the button to `ProbeHidden`. |
| Filter.Controller.On | swfiles/includes/pagecomps_2.js:1963-1969 | The bus becomes `Subscribe` of the old one. |
| Filter.Controller.RemoveListener | swfiles/includes/pagecomps_2.js:1971-1979 | Throws without changing the bus for an unregistered name; otherwise the bus becomes `Unsubscribe` of the old one. |
| Filter.Controller.Emit | swfiles/includes/pagecomps_2.js:1981-1991 | Its loop makes exactly the calls `Dispatch` describes, or throws for an unregistered name. |
| Filter.Controller.DeleteErrorMessage | swfiles/includes/pagecomps_2.js:1787-1792 | When `this.error` is set, the message leaves the overview and the flag clears; otherwise nothing changes. |
| Filter.Controller.LoadEntries | swfiles/includes/pagecomps_2.js:1916-1957 | Sends the current settings. The overview, the message flag, the button and the listener calls become `LoadEffect` for the answer, with the overview kept well formed. |
| Filter.Controller.ShowPage | swfiles/includes/pagecomps_2.js:1925-1944 | The non-empty-`html` branch step by step, including the throw on a missing button. |
| Filter.Controller.ShowNothing | swfiles/includes/pagecomps_2.js:1945-1955 | The empty-`html` branch step by step, including the throw on a missing button. |
| Filter.Controller.FilterClick | swfiles/includes/pagecomps_2.js:1884-1901 | With the filter bar active, the settings become `FilterSettings(start, id)` and the overview is replaced; otherwise nothing changes. |
| Filter.Controller.LoadMoreClick | swfiles/includes/pagecomps_2.js:1904-1911 | With load-more active, `pageno` goes up by one, nothing else in the settings changes, and the page is added; otherwise nothing changes. |

## Left out

- The DOM itself: element creation in `markup`, `_createButton`, `_createErrorMessage` and `initLoadmore`, CSS class toggles other than the arrow flags and the load-more `hidden` flag, and `initFilterbar`'s button rendering. These are presentation.
- `initFilterbar` is not modelled. That includes the synchronous `button.click()` for the initially active category, which runs a filter click during construction.
- The active-button class swap in the filter click handler is not modelled; the click is modelled from the `rendersettings` reset onwards, with the filter bar element present.
- The document click listener's `closest()` matching of the wrapper and buttons is not modelled. Each handler is a method the caller invokes for a click on that button.
- Asynchrony: the promise chains of `load`, `checkLoadmore` and `loadEntries`, `setTimeout`, `transitionAsPromise` and `debounce`. Each effect is modelled as if its answer arrived at once. The answer, or whether the image decodes, is an input, and overlapping requests are not modelled.
- I/O and foreign calls: `_fetchData` (XMLHttpRequest), `_objectToUrl` (`encodeURIComponent`), `loadImage`, and JSON parsing of responses and data attributes, whose failures reach the `catch`.
- The constructor's parse failure of the data attributes and the missing-wrapper early returns: the controller is built from parsed data.
- In `checkEnvironment`, the URL parsing and the `projectPath` derivation from `cleanURL_path`, `SM_User` or the pathname. The project path is an input.
- `fit` and the mousemove pan computation (floating-point ratios over measured sizes), `position`, `appear`, `zoomable` (a boolean input), the preloading of the next image, and the `description`/`pagination` callbacks.
- The fullscreen vendor calls. The `fullScreenApi` constant stands for whether `openFullScreen` succeeds; `exitFullScreen` returns the opposite.
- `Chocolat.Lightbox.constructor`: `window.Chocolat` (lines 679-688) copies the caller's options over the defaults into `settings`, so a caller could preset `currentImageIndex` or `lastImageIndex`; a preset `currentImageIndex` makes `init` on that index return early without showing anything. The model starts with both unset (`None`), as the defaults at lines 151-152 have them (`false` and `undefined`), and takes the other settings as constructor parameters.
- Chocolat built from an `HTMLCollection`: the type test accepts it, but `HTMLCollection` has no `forEach`, so the constructor throws there. `Source.Anchors` models only the NodeList path.
- Chocolat's user hooks `afterInitialize`, `afterMarkup`, `afterImageLoad` and `setTitle` are calls into code the caller supplies. They are left out, together with what they might change.
- `Options.Canonical`: a JavaScript object cannot hold both the property "0" and index 0, but the model's keys `Name("0")` and `Index(0)` differ. `Resolve` requires options written with `Index` keys for index spellings. Every key of the defaults is a word. That the defaults and the merged result follow the convention is not proved.
- The public `api` object of Chocolat, including `api.set`, which can change settings after construction. The settings are constants here.
- The second, identical copy of Chocolat in the same file and the context script `swfiles/body/lay.4.20211105160051.js`.
- The jQuery, Flexslider, Swiper, OwlCarousel, MagnificPopup and datepicker initialisers.
- What listeners do when called: the bus records the calls `emit` makes, and a listener that changes the bus during `emit` is not modelled.
- Event names that collide with `Object.prototype` members (`toString`, `constructor`, ...): they would look registered without `on`.
- `parseInt` coercions and loose versus strict equality between string and number ids. `list_nr`, `pageno` and category ids are integers, and filter ids and the clicked button's value are their text.
- `Options.DeepMerge`: models calls with exactly one source, as every call in the file makes them, and does not model an object option merged into an array target, whose numeric keys would leave holes. The `Mergeable` precondition excludes that case.
- `Chocolat.Lightbox.Load`: a requested index outside the images, or NaN, is `NoSuchImage`. In the code `loadImage(undefined)` throws a TypeError while destructuring its argument, so `load` itself throws, and so do the `change` or keydown handler that called it. No promise is returned. The visibility and fullscreen changes made before the throw are modelled; the loader and fade-out timers scheduled just before it stay armed and are not modelled.
- `Filter.Controller.LoadEntries`: a missing load-more button with load-more active makes the code throw inside the promise callback. The model keeps the effects made before the throw and drops the rest; the logged error is not returned.
