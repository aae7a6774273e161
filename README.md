# Delivery records of the workshop dashboard (cloud_sync.js), modelled in Dafny

`cloud_sync.js` renders the delivery records ("fichas") kept in the browser's
local storage under the key `TallerFlowDB` as progress cards, and offers three
actions on a card: record a partial delivery ("+ Entrega"), edit the total
("Editar total") and delete ("Eliminar"). This project models the part of it
that is data rather than DOM:

- `Records` (records.dfy): the record shape and the progress derivation of
  `sumDelivered` and `normalize`: delivered quantity, pending quantity,
  rounded percentage and stage (`prep`, `fab`, `entregado`, or an explicit
  non-empty `stage` string that overrides the inference).
- `Store` (store.dfy): `findIndexByRef`, the record updates performed by
  `addEntrega` and `editTotal` (append to `history`, set `total`, recompute
  `flow.entregado` and `flow.fab`), the list filter of `removeDelivery`, and a
  class `DB` whose `deliveries` field stands for the stored document and whose
  three methods perform the actions step by step, returning an `Outcome`.
- `Views` (views.dfy): the stage filter `render` applies before building
  cards (`all` keeps everything, any other filter keeps the records whose
  derived stage equals it).
- `Wrappers` (wrappers.dfy): an `Option` type for absent or ill-typed fields.

Representation choices:

- A missing or non-numeric `total` is `None` and reads as 0; a missing or
  non-array `history` is `None` and reads as empty; a history entry whose
  `qty` is not a number has `qty == None` and contributes 0; a missing `flow`
  object is the empty map, as `item.flow || {}` makes it.
- `ref` is optional. A record's key is its `ref` with a missing one read as
  `""`. `addEntrega` and `editTotal` look a record up with the card's raw
  `ref`, so a card whose record has no `ref` matches nothing and ends in
  "not found". `removeDelivery` instead reads a missing key as `""` and so
  removes every record without a `ref`. The model keeps both behaviours.
- Prompt answers are parameters: `NumberAnswer` is `Cancelled`,
  `NotFinite` (what `Number(...)` makes NaN or infinite) or `Finite(n)`; the
  date is an optional string; the delete confirmation is a boolean.
- `Outcome.Aborted` is a silent return (a cancelled prompt, an empty date);
  `InvalidQuantity`, `InvalidTotal` and `NotFound` are the three alerts. The
  checks run in the code's order: `addEntrega` validates the quantity and the
  date before looking the record up, `editTotal` looks the record up first.
- `Math.round(delivered / total * 100)` is computed exactly on integers,
  rounding halves up: `(200 * delivered + total) / (2 * total)`. `Normalize`
  characterises it as the unique integer `p` with
  `2*total*p - total <= 200*delivered < 2*total*p + total`.

The system's design notes also describe a stage policy driven by per-phase
percentages in `flow` and a merge of two record lists; neither exists in
cloud_sync.js, so neither is modelled. They speak of deleting "the record"
with a given `ref`; the code drops every record with that key, and so does
the model.

## Model

| member | source | states |
|---|---|---|
| `Records.SumQty` | cloud_sync.js:19-22 | the delivered sum of a history; non-negative when no quantity is negative, 0 when every quantity is 0 or missing |
| `Records.SumQtyConcat` | cloud_sync.js:21 | the sum over a concatenation of histories is the sum of the parts |
| `Records.SumQtyBoundsEach` | cloud_sync.js:21 | with no negative quantity, each single delivery is at most the delivered sum |
| `Records.Delivered` | cloud_sync.js:19-22 | a record with no (array) history has delivered 0; non-negative quantities give a non-negative sum |
| `Records.Pct` | cloud_sync.js:27 | 0 when the total is not positive; otherwise the integer nearest to 100 * delivered / total, halves rounded up |
| `Records.NearestPercentUnique` | cloud_sync.js:27 | the rounding condition determines the percentage uniquely |
| `Records.InferStage` | cloud_sync.js:28-30 | `entregado` iff total > 0 and delivered >= total; `fab` iff not that and delivered > 0; `prep` iff neither |
| `Records.Normalize` | cloud_sync.js:23-34 | total and delivered as read; pending is max(0, total - delivered), never negative; pct as rounded; a non-empty `stage` string overrides the inferred stage |
| `Records.PctOfFullDelivery` | cloud_sync.js:27 | a record delivered exactly in full shows 100% |
| `Records.PctWithinRange` | cloud_sync.js:27 | while 0 <= delivered <= total, the percentage lies in [0, 100] |
| `Records.InferredStageMatchesFigures` | cloud_sync.js:24-30 | without override: `entregado` has nothing pending and pct >= 100; `fab` with a positive total has something pending and pct <= 100; `prep` with a positive total has pct <= 0 |
| `Records.InferredStageIsKnown` | cloud_sync.js:28-32 | without an override the stage is one of `prep`, `fab`, `entregado` |
| `Records.NormalizeExamples` | cloud_sync.js:23-34 | 10 of 10 is `entregado` at 100%, 3 of 10 is `fab` at 30%, none of 10 is `prep` at 0% |
| `Store.FindIndexByRef` | cloud_sync.js:178-181 | the least index whose key equals the lookup key, or -1 exactly when no record matches; a missing lookup key matches nothing |
| `Store.SyncFlow` | cloud_sync.js:198-202 | `entregado` set to delivered, `fab` to max(0, total - delivered), every other phase kept, no other key added |
| `Store.AppendDelivery` | cloud_sync.js:194-203 | exactly one entry `{date, qty}` appended at the end of the history; ref, total and stage unchanged; delivered grows by qty; the flow fields agree with the card's delivered and pending figures; other phases kept |
| `Store.ReplaceTotal` | cloud_sync.js:219-224 | total replaced; history, ref and stage unchanged; delivered unchanged; the flow fields agree with the card's delivered and pending figures; other phases kept |
| `Store.AppendDeliveryNeverRegresses` | cloud_sync.js:194-203 | a positive delivery never moves the inferred stage back along prep, fab, entregado and never increases what is pending |
| `Store.AppendDeliveryExample` | cloud_sync.js:194-202 | adding 4 to total 10 with 3 delivered gives delivered 7, pending 3, 70%, flow entregado 7 and fab 3 |
| `Store.RemoveByRef` | cloud_sync.js:237 | the list never grows; every survivor comes from the old list and has a different key; every record with a different key survives |
| `Store.RemoveByRefConcat` | cloud_sync.js:237 | removal works piecewise over a concatenation, so survivors keep their relative order |
| `Store.RemoveByRefUnchangedIff` | cloud_sync.js:237 | the list is unchanged if and only if no record has the key |
| `Store.RemoveByRefIdempotent` | cloud_sync.js:237 | removing the same key twice equals removing it once |
| `Store.RemovedRefNotFound` | cloud_sync.js:237 | after removal no record is found under the removed key |
| `Store.DB.constructor` | cloud_sync.js:191 | the store holds the given list of records |
| `Store.DB.AddEntrega` | cloud_sync.js:183-206 | cancelled quantity or missing/empty date: silent abort; non-finite or non-positive quantity: invalid; unknown key: not found; in all three the list is unchanged; on success only the first matching record changes, to `AppendDelivery` of it |
| `Store.DB.EditTotal` | cloud_sync.js:208-227 | unknown key: not found; cancelled: abort; non-finite or negative total: invalid; in all three the list is unchanged; on success only the first matching record changes, to `ReplaceTotal` of it |
| `Store.DB.RemoveDelivery` | cloud_sync.js:234-240 | when confirmed, the list becomes `RemoveByRef` of it under the card's key (missing read as ""); otherwise unchanged |
| `Views.ToShow` | cloud_sync.js:102-104 | each shown record comes from the list with its `normalize` figures and passes the filter; every record that passes is shown; `all` shows every record in order |
| `Views.ToShowConcat` | cloud_sync.js:102-104 | filtering works piecewise, so shown records keep the stored order |
| `Views.StageFiltersPartition` | cloud_sync.js:102-104 | with no stage override, the `prep`, `fab` and `entregado` filters show each record under exactly one of them |

## Left out

- DOM construction and page lookup (`el`, `btn`, `card`, `findMainPanel`, `hideEmptyMessage`, the mounting in `render`): presentation only; this includes clamping the percentage to [0, 100] for the progress bar.
- `prompt`, `alert`, `confirm` and `showNotes`: the prompted values are method parameters and the alerts are `Outcome` values; the default answers shown in the prompts are not modelled.
- `loadDB`/`saveDB` and JSON parsing: local storage is replaced by the `deliveries` field of `DB`; a stored `deliveries` that is not an array is modelled as the empty list, and the save and re-render after each action are not modelled.
- The `window.__cloudSyncFilter` global, the `window.CloudSync` export and the automatic render on page load: host wiring; the filter is a parameter of `ToShow`.
- IEEE-754 numbers: quantities and totals are integers; fractional values, NaN and infinities are not modelled (a value `Number(...)` makes non-finite is `None` in stored data and `NotFinite` in a prompt answer), and the percentage is rounded exactly rather than on a floating-point quotient.
- The default date from the clock (`new Date().toISOString()`): the date is a parameter.
- Record fields the core never reads (`concept`, `company`, `datePed`, `datePrev`, `partialNotes`) and non-string `ref` or `stage` values (a non-string `stage` is `None`).
- A `flow` value that is truthy but not an object: it is modelled as a map.
