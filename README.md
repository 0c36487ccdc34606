# Catalog admin client: state machinery of the product screens

This project models the event handlers of a React admin client for a product
catalog, and proves properties of that model in Dafny. The handlers covered
are the ones that change component state:

- the product-creation form (`Add.jsx`): the draft, image-upload validation and
  the append, the colour toggle, submit validation, payload construction, and
  the reset or keep of the draft after the backend answers;
- the bounded colour picker (`Colorpicker.jsx`): a duplicate-free list capped by
  `maxColors`, whose every change is pushed to a callback;
- the edit popup (`UpdateProductPopup.jsx`): a snapshot of one product, the
  colour list written as `join(", ")` text and read back with
  `split(",").map(trim)`, the loading flag, and refresh-then-close on success;
- the list screen (`List.jsx`): the list replaced wholesale by the reversed
  fetch result, refetch after a search change or a confirmed delete, and the
  popup flag kept in step with the selected product;
- the dashboard (`Dashboard.jsx`): product counts by stock status.

Files, one module each: `catalog.dfy` (the product record and the `Reply`
outcome of a backend request), `lists.dfy` (the shared `filter(y => y !== x)`
and the no-duplicates property), `add_form.dfy`, `color_picker.dfy`,
`update_popup.dfy`, `list_screen.dfy` and `dashboard.dfy`.

How time and the network are modelled:

- Every backend or image-host request is an outcome parameter. `Reply` is
  `Succeeded` (a body with `success` truthy), `Rejected` (`success` falsy) or
  `Failed` (an exception). An upload is `Uploaded(url)` or `UploadFailed`.
  The dashboard's answer is `Products(list)`, `NoProducts` or `Threw`.
- When a flag is raised while a request is in flight, the handler is split into
  a start step and a finish step that takes the outcome. This covers
  `isUploading`, `isSubmitting` and the popup's `loading`. List fetches happen
  in one method, which takes the outcome and the returned array.
- The list screen records every request it issues, in order, in its
  `requests` field. "Which fetch ran with which search term" is stated over
  that log.
- The enabling conditions are predicates:
  - `ProductForm.SubmitEnabled`: neither `isSubmitting` nor `isUploading` holds.
  - `ProductForm.UploadOffered`: fewer than 4 images are present.
  - `UpdateProductPopup.UpdateEnabled`: `loading` does not hold.
  - `ProductList.PopupShown`: `isPopupOpen` holds.
- A callback is not called directly. The method returns what the callback was
  given. `AddColor` returns an `Option<seq<string>>` for `onColorSelect`,
  since a refused add makes no call. `RemoveColor` returns a plain
  `seq<string>`, since a removal always calls back. The popup returns the
  ordered list of its callbacks.

Points where the code does something a reader might not expect, modelled as the code has it:

- The upload also accepts the MIME type `image/jpg`, not only jpeg and png.
- The form's colour toggle has no cap. The capped picker is a separate
  component that the form does not use.
- A delete never removes an entry from the list locally. The list changes only
  through the refetch after the backend confirms the delete.
- Toggling a colour that is already selected, and then toggling it again, gives
  back the same colours. The colour moves to the end, so the list differs
  unless the colour was already last (`ToggleTwicePresent`,
  `ToggleTwiceRestoresIffLast`). An absent colour is always restored exactly
  (`ToggleTwiceAbsent`).
- The popup's Cancel button is never disabled. Cancelling while an update is
  in flight does not stop its callbacks. When that update succeeds, the list
  is refetched and the close callback closes whatever popup is open by then,
  possibly the popup of another product. The refetch uses the search term
  that the callback captured when the update started, even if the operator
  has searched for something else since (`CancelledUpdateExample`).

## Model

| member | source | states |
|---|---|---|
| `AddForm.CheckUpload` | src/components/Add.jsx:31-41 | A missing file is refused first. A file over 1048576 bytes is refused next, so exactly 1048576 passes. Then the type must be image/jpeg, image/png or image/jpg. The result is `Accepted` exactly when all three checks pass. |
| `AddForm.ProductForm.StartUpload` | src/components/Add.jsx:30-43 | A refused file changes no draft field and leaves `isUploading` as it was. An accepted file raises `isUploading` and changes nothing else. |
| `AddForm.ProductForm.FinishUpload` | src/components/Add.jsx:43-63 | A returned URL is appended after the earlier URLs, which keep their order. A failed upload leaves `imageUrls` unchanged. No other draft field changes, and `isUploading` is false afterwards either way. |
| `AddForm.ToggleColor` | src/components/Add.jsx:67-73 | After the toggle, a colour is in the list exactly when it was in before XOR it is the toggled colour. An absent colour is appended at the end. |
| `AddForm.ToggleRemovesAt` | src/components/Add.jsx:69-70 | In a duplicate-free list, toggling the colour at position i removes that one position. The other colours keep their order. |
| `AddForm.ToggleNoDuplicates` | src/components/Add.jsx:67-73 | A duplicate-free colour list stays duplicate-free after a toggle. |
| `AddForm.ToggleTwiceAbsent` | src/components/Add.jsx:67-73 | Toggling an absent colour twice gives back exactly the original list. |
| `AddForm.ToggleTwicePresent` | src/components/Add.jsx:67-73 | Toggling a present colour twice gives back the same set of colours. The toggled colour is now last and the others keep their order. |
| `AddForm.ToggleTwiceRestoresIffLast` | src/components/Add.jsx:67-73 | In a duplicate-free list, toggling a present colour twice gives back exactly the same list if and only if that colour was the last one. |
| `AddForm.ProductForm.HandleColorChange` | src/components/Add.jsx:67-73 | `color` becomes the toggle of the old list. No other draft field or flag changes. |
| `AddForm.ParseInt` | src/components/Add.jsx:100 | A non-empty plain digit string whose value is at most 2^53 gives that integer, which the double holds exactly. Any other text, a digit string of larger value included, is kept as an uninterpreted parseInt of that text. |
| `AddForm.ParseIntShow` | src/components/Add.jsx:100 | Any natural number up to 2^53 written in decimal is read back as that number. |
| `AddForm.BuildPayload` | src/components/Add.jsx:94-114 | These pass through unchanged: name, description, category, stock status, colours, image URLs and brand. The stock total is parseInt of its text. Pricing, weight and the three dimensions are parseFloat of their text. |
| `AddForm.CheckSubmit` | src/components/Add.jsx:80-88 | Any of name, description, pricing, category or stock total empty gives `MissingFields`. This check comes first. Otherwise an empty image list gives `NoImages`. Only when both checks pass is a payload built, and it holds at least one image. |
| `AddForm.ProductForm.constructor` | src/components/Add.jsx:6-19 | On mount the draft is the empty draft: empty strings, no colours, no images, status "in_stock", empty metadata and dimensions. No request is in flight. |
| `AddForm.ProductForm.SubmitEnabled` | src/components/Add.jsx:314 | The save button is enabled exactly when neither a submit nor an upload is in flight. |
| `AddForm.ProductForm.UploadOffered` | src/components/Add.jsx:166 | The upload control is offered exactly when fewer than 4 images are present. |
| `AddForm.ProductForm.StartSubmit` | src/components/Add.jsx:76-90 | The result is the validation of the draft. A refused submit changes neither the draft nor `isSubmitting`. An accepted submit raises `isSubmitting`, which disables the save control. |
| `AddForm.ProductForm.FinishSubmit` | src/components/Add.jsx:121-145 | On success every draft field returns to its mount-time value. On a rejection or an exception every field is kept, images and colours included. `isSubmitting` is false afterwards either way. |
| `AddForm.FillChairForm` | src/components/Add.jsx:30-63 | A freshly mounted form gets its required fields filled in and one PNG accepted. The submit button is disabled while the upload is in flight: the returned `enabledWhileUploading` is false. Afterwards the draft holds exactly those fields and the one URL, and submit is enabled again. |
| `AddForm.CreateChairExample` | src/components/Add.jsx:76-145 | Submitting the filled form, with the backend accepting it, sends a payload whose stock is the integer 10 with status in_stock and whose images are the uploaded URL. The form ends empty. |
| `ColorSelection.CheckAdd` | src/components/Colorpicker.jsx:29-40 | An already-selected colour is refused first, then a selection already at `maxColors`. Otherwise the add goes ahead. |
| `ColorSelection.AddKeepsBounded` | src/components/Colorpicker.jsx:37-45 | An allowed add keeps the selection free of duplicates and within `maxColors`. |
| `ColorSelection.RemoveKeepsBounded` | src/components/Colorpicker.jsx:48-52 | A removal keeps the selection free of duplicates and within `maxColors`. |
| `ColorSelection.AddThenRemove` | src/components/Colorpicker.jsx:42-52 | Adding a fresh colour below capacity and then removing it gives back the original list. |
| `ColorSelection.RemoveKeepsOrder` | src/components/Colorpicker.jsx:48-52 | Removing an unselected colour leaves the list as it was. Removing a selected colour drops that one position and keeps the rest in order. |
| `ColorSelection.ColorPicker.constructor` | src/components/Colorpicker.jsx:4-11 | The selection starts empty. `currentColor` is the initial-colour prop, "#ffffff" when that prop is absent. `maxColors` is the prop, 5 when absent. |
| `ColorSelection.ColorPicker.AddColor` | src/components/Colorpicker.jsx:29-46 | A refused add changes nothing and does not call back. An allowed add appends the colour, makes it current and reports exactly the new list. The bound invariant holds afterwards. |
| `ColorSelection.ColorPicker.PickColor` | src/components/Colorpicker.jsx:97 | The colour input sets the current colour and leaves the selection alone. |
| `ColorSelection.ColorPicker.RemoveColor` | src/components/Colorpicker.jsx:48-52 | The selection becomes the filtered list and `currentColor` does not change. The new list is always reported, and the bound invariant holds. |
| `ColorSelection.CapacityExample` | src/components/Colorpicker.jsx:29-46 | On a picker with default props, five distinct colours are accepted. A sixth is refused as `AtCapacity`, with no callback. |
| `Lists.Without` | src/components/Colorpicker.jsx:49 | The filtered list keeps exactly the elements other than the removed one, and is never longer. |
| `Lists.WithoutAt` | src/components/Colorpicker.jsx:49 | In a duplicate-free list, the filter removes the one position holding the colour and keeps the others in order. |
| `Lists.WithoutMultiset` | src/components/Add.jsx:70 | The filter removes every occurrence of the colour and nothing else: the multiset is the old one with that colour's count set to 0. |
| `ProductUpdate.JoinColorsSpaced` | src/components/UpdateProductPopup.jsx:13 | For a non-empty list, joining with ", " gives the same text as joining with "," after a blank is put before every colour but the first. |
| `ProductUpdate.SplitOnComma` | src/components/UpdateProductPopup.jsx:23 | The split always gives at least one piece. `JoinSplit` and `SplitPiecesCommaFree` pin the pieces down: comma-free, and joining them with "," gives the text back. |
| `ProductUpdate.JoinSplit` | src/components/UpdateProductPopup.jsx:23 | Splitting on "," loses nothing: joining the pieces back with "," gives the original text. |
| `ProductUpdate.SplitPiecesCommaFree` | src/components/UpdateProductPopup.jsx:23 | No piece of the split contains a comma. |
| `ProductUpdate.Trim` | src/components/UpdateProductPopup.jsx:23 | The trimmed text has no whitespace at either end. `TrimCutsOuterBlanks` adds that nothing but outer whitespace is removed. |
| `ProductUpdate.TrimCutsOuterBlanks` | src/components/UpdateProductPopup.jsx:23 | The trim of a text is a slice of it with only whitespace before the slice and only whitespace after it. With `Trim`'s own contract, trim removes the outer whitespace and nothing else. |
| `ProductUpdate.TrimAll` | src/components/UpdateProductPopup.jsx:23 | `map(trim)`: the same number of entries, each the trim of the piece at the same position. |
| `ProductUpdate.TrimTrimmed` | src/components/UpdateProductPopup.jsx:23 | Text with no outer whitespace is unchanged by trim. |
| `ProductUpdate.ParseColors` | src/components/UpdateProductPopup.jsx:23 | Parsing the colour text always gives at least one entry, and every entry is trimmed. |
| `ProductUpdate.ColorRoundTrip` | src/components/UpdateProductPopup.jsx:13-23 | Take a non-empty colour list whose entries have no comma and no outer whitespace. Joining it with ", " and parsing the text back gives the original list. |
| `ProductUpdate.EmptyColorsParseToBlank` | src/components/UpdateProductPopup.jsx:13-23 | The empty colour list comes back as a one-element list holding the empty string. |
| `ProductUpdate.Snapshot` | src/components/UpdateProductPopup.jsx:7-13 | Name, description, pricing, category, stock total and stock status are copies of the product's. The colour text is the product's colours joined with ", ". For a non-empty list with no comma and no outer whitespace in any entry, that text parses back to the product's colours. |
| `ProductUpdate.PayloadOf` | src/components/UpdateProductPopup.jsx:17-24 | Name, description, pricing and category pass through uncoerced. The stock is the total and status as edited. The colours sent are the parse of the colour text. |
| `ProductUpdate.UneditedUpdate` | src/components/UpdateProductPopup.jsx:7-24 | Saving a snapshot without edits sends back the product's own name, description, pricing, category, stock and colours. This holds when the colour list is non-empty and well formed. |
| `ProductUpdate.UneditedUpdateNoColors` | src/components/UpdateProductPopup.jsx:7-24 | Saving a snapshot of a product with no colours sends `[""]` as its colours. |
| `ProductUpdate.UpdateProductPopup.UpdateEnabled` | src/components/UpdateProductPopup.jsx:125 | The update button is enabled exactly when no update is in flight. |
| `ProductUpdate.UpdateProductPopup.constructor` | src/components/UpdateProductPopup.jsx:7-14 | The editable fields start as the product's snapshot, and `loading` is false. |
| `ProductUpdate.UpdateProductPopup.ProductChanged` | src/components/UpdateProductPopup.jsx:51-61 | When the product prop changes, all seven fields are overwritten from its snapshot. Unsaved edits are lost, and `loading` does not change. |
| `ProductUpdate.UpdateProductPopup.StartUpdate` | src/components/UpdateProductPopup.jsx:16-26 | The request goes to the product's id with the payload of the current fields. The fields are kept, `loading` is raised and the update control is disabled. |
| `ProductUpdate.UpdateProductPopup.FinishUpdate` | src/components/UpdateProductPopup.jsx:36-47 | On success it calls the refresh and then the close, in that order. On a rejection or an exception it calls neither. The fields are kept either way and `loading` is cleared. |
| `ListScreen.Reversed` | src/components/List.jsx:19 | The reversal has the same length as the fetched list. `ReversedAt` fixes every position. |
| `ListScreen.ReversedAt` | src/components/List.jsx:19 | Position k of the displayed list holds position n-1-k of the fetched list. |
| `ListScreen.ReversedEnds` | src/components/List.jsx:19 | The first product displayed is the last one fetched, and the last displayed is the first fetched. |
| `ListScreen.ReversedTwice` | src/components/List.jsx:19 | Reversing twice gives back the fetched order. |
| `ListScreen.ReverseInPlace` | src/components/List.jsx:19 | The array's contents become the reversal of its old contents. |
| `ListScreen.ProductList.constructor` | src/components/List.jsx:8-63 | The state starts at List.jsx:8-11: no popup and an empty search term. The mount effect at List.jsx:61-63 then fetches with that term. The list is the reversed result on success and empty otherwise, and the returned array is left reversed on success and untouched otherwise. |
| `ListScreen.ProductList.FetchList` | src/components/List.jsx:13-27 | One fetch is logged with its term. On success the list is replaced wholesale by the reversed result, with the same length. On a rejection or an exception the list is unchanged. No other state changes. |
| `ListScreen.ProductList.HandleSearch` | src/components/List.jsx:57-63 | Sets the search term. When the term actually changed, it fetches exactly once with the new term. Otherwise no request is issued and the list is kept. The returned array is left reversed when that fetch succeeds, and is untouched otherwise. |
| `ListScreen.ProductList.RemoveProduct` | src/components/List.jsx:29-45 | A delete is logged. The list is never edited locally. Only a confirmed delete refetches, with the term current at the time of the delete (List.jsx:37). After a rejection or an exception the list is unchanged. The returned array is left reversed when the refetch succeeds, and is untouched otherwise. |
| `ListScreen.ProductList.OpenUpdatePopup` | src/components/List.jsx:47-50 | Selects the product and opens the popup. The flag and the selection stay in step. |
| `ListScreen.ProductList.ClosePopup` | src/components/List.jsx:52-55 | Clears the selection and closes the popup. The flag and the selection stay in step. |
| `ListScreen.ProductList.PopupShown` | src/components/List.jsx:129 | The popup is rendered exactly when `isPopupOpen` holds. |
| `ListScreen.ProductList.RefreshFromPopup` | src/components/List.jsx:134 | The refresh callback refetches with the term it is given: the one captured when the popup's update was started, which may differ from the current term. It runs whether or not a popup is still shown. It logs one fetch, and it changes neither the search term, the selection nor the open flag. The returned array is left reversed on success and is untouched otherwise. |
| `ListScreen.EditFlowExample` | src/components/List.jsx:129-136 | Open the popup on a listed product and save it unedited; the backend accepts. The request carries the payload of the product's snapshot. When the product's colour list is non-empty and well formed, that is exactly the product's own name, description, pricing, category, stock and colours. The list is refetched, and then the popup is closed. |
| `ListScreen.CancelledUpdateExample` | src/components/UpdateProductPopup.jsx:36-39 | An update is started and the popup cancelled (Cancel, UpdateProductPopup.jsx:129, is never disabled), the operator searches for "x", and another product's popup is opened. When the first update then succeeds, the list is refetched with the empty term captured at the start while the search box holds "x", and the other product's popup is closed. |
| `Dashboard.WithStatus` | src/components/Dashboard.jsx:21-22 | The status filter keeps exactly the products with that status, with their multiplicity: each product with the status occurs as often as in the input, and any other product not at all. |
| `Dashboard.CountStatus` | src/components/Dashboard.jsx:21-22 | The count is at most the number of products, and it is zero exactly when no product has the status. |
| `Dashboard.CountAppend` | src/components/Dashboard.jsx:21-22 | One more product adds one to the count of its own status and nothing to the count of any other status. |
| `Dashboard.DisjointCounts` | src/components/Dashboard.jsx:20-22 | Counts for two different statuses add up to at most the number of products. |
| `Dashboard.CountPermutation` | src/components/Dashboard.jsx:21-22 | The count for a status does not depend on the order of the products. |
| `Dashboard.ComputeStats` | src/components/Dashboard.jsx:19-23 | The total is the number of products. The in-stock and out-of-stock counts are the status counts, and together they are at most the total. |
| `Dashboard.StatsOrderIndependent` | src/components/Dashboard.jsx:20-22 | Any reordering of the products gives the same three counts. |
| `Dashboard.OtherStatusCountsInTotalOnly` | src/components/Dashboard.jsx:20-22 | A product with any other status, such as low_stock, adds to the total only. |
| `Dashboard.InStockAddsToTotalAndInStock` | src/components/Dashboard.jsx:20-22 | An in-stock product adds one to the total and one to the in-stock count. |
| `Dashboard.FetchProductStats` | src/components/Dashboard.jsx:17-25 | A body with a products field replaces the stats with the stats computed from those products, and an empty array counts as present. A body without one, or an exception, leaves the stats unchanged. The stats start empty (`InitialStats`). |

## Left out

- Rendering, styling, the colour palette buttons and DOM events are not modelled. Only the enabling conditions are kept, as predicates.
- The form's and the popup's plain `onChange` setters are not modelled as methods. Each one assigns one field, and the model's fields are public and assigned directly (`FillChairForm` does this).
- Toast notifications are not modelled. Each handler's outcome datatype (`UploadCheck`, `SubmitCheck`, `AddOutcome`, `Reply`) shows which notice would be shown. No notification text is kept.
- HTTP and image-host traffic, the backend URL, the bearer token and the Cloudinary settings are not modelled. They are foreign I/O, replaced by outcome parameters.
- BuildPayload: parseFloat of pricing, weight and the dimensions is kept as `FloatOf(text)`, uninterpreted. Floating-point coercion is out of scope.
- ParseInt: only plain digit strings of value at most 2^53 are interpreted. JavaScript's handling of whitespace, signs, trailing junk and NaN is kept as `IntOf(text)`. So are the rounding of a larger value to the nearest double and the Infinity that a digit string of about 310 digits or more gives.
- Trim: it removes ASCII whitespace, no-break space, the byte-order mark and the line/paragraph separators. The other Unicode space characters that JavaScript's `trim` also removes are not modelled.
- Overlapping uploads, out-of-order completions and React's batching are not modelled. The handlers run one after another. Of the stale closures, only the popup's refresh callback is modelled, through the term it captured. Every other handler reads the state current when it runs.
- The popup starts `fetchList` without awaiting it, so the list's fetch may finish after the popup closes. The model keeps only the call order.
- Pricing and stock total in the popup hold whatever value the backend returned. The model keeps them as text, since they pass through uncoerced.
- ColorSelection.ColorPicker.constructor: `maxColors` is a natural number. A negative or fractional prop is not modelled.
- A successful list response without a `products` array is not modelled: `Succeeded` always comes with an array. In the source, `.reverse()` then throws, the error is caught and the list is kept (List.jsx:19-25).
- The dashboard's behaviour on a product without a `stock` object is not modelled. In the source it throws inside the filter, which would be caught and would leave the stats unchanged.
- The route guard and token persistence in src/App.jsx are not part of this model.
- Logout in src/components/Navbar.jsx, which clears a local-storage entry, is not part of this model.
- The static links in src/components/Sidebar.jsx are not part of this model.
- src/components/Orders.jsx is not part of this model. Its fetch-reverse-refetch pattern matches the list screen's.
