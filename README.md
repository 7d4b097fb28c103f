# go-marketo bulk import and custom objects, modelled in Dafny

This project models the deterministic logic of a client library for the
Marketo REST API that sits between its HTTP calls:

- **Record reference resolution** (`ImportPaths`): an object's API name gives
  its three bulk-import endpoint templates (create, status, failures). The lead
  object comes from a one-entry static table, and every other name gets
  `customobjects/<name>/import` templates. The batch id is filled into the `%d`
  placeholder, and `.json` is appended to form the request paths.
- **Bulk job client** (`Bulk`): this covers the outcome of the create and status
  calls for a given answer. An answer is a status code plus the decoded
  envelope. The status call also sets the derived `processed` count of every
  batch in place.
- **Failure report decoder** (`FailureReport`): this covers the outcome of the
  failures call.
  - A 404 answer is an empty report.
  - Otherwise the CSV rows are read one by one, and each row becomes a failure
    whose reason is its last cell.
  - Reading stops quietly at the first read error.
- **Describe** (`CustomObjects`): the searchable-field groups are collected into
  a set. Then the `searchable` flag of each field is overwritten in place.
- **Filter** (`DynamicRecords`): every raw record is decoded into a result. Two
  keys are promoted to typed attributes, and all other keys are kept with their
  values. The first record that fails to decode aborts the call.

`Wrappers` holds `Option`/`Result`. `Api` holds what all calls share:
- the status codes;
- the error values (`HttpStatus` with the operation label, `Api` with the
  envelope's reasons, `NotFound`, `Propagated` for an error passed on
  unchanged, `FieldDecode`);
- the response envelope;
- the early-return dispatch shared by create and status.

The network, the JSON decoder, the CSV tokenizer and the `mapstructure` decoder
are all inputs to the model:
- A `Response<T>` is a status code plus the outcome of decoding the envelope.
- The envelope's payload is an `Unmarshalled<T>`: the value as far as it was
  filled, and the decoder's error, if any.
- The CSV reader is the sequence of outcomes its successive reads return.
  Reading past the last outcome reports end of input.
- The raw keys that `mapstructure` binds to `MarketoGUID` and `Sequence` are a
  `Promotion` parameter.

## Model

| member | source | states |
|---|---|---|
| `ImportPaths.ImportObjectForAPIName` | bulk.go:23-46 | `"lead"` resolves to the `Leads` templates. Any other name `n` gives create `customobjects/n/import`, and status and failures are create followed by `/%d/status` and `/%d/failures`. |
| `ImportPaths.PlaceholderCounts` | bulk.go:24-45 | For a name without `%`, create has no `%`. Status and failures each hold exactly one verb, and it is `%d`. |
| `ImportPaths.LeadStatusTemplate` | bulk.go:24-28 | `leads/batch/%d` is a one-verb template, and filling it with id gives `leads/batch/<id>`. |
| `ImportPaths.LeadFailuresTemplate` | bulk.go:24-28 | `leads/batch/%d/failures` is a one-verb template, and filling it gives `leads/batch/<id>/failures`. |
| `ImportPaths.CustomTemplates` | bulk.go:41-45 | A custom object's status and failures templates are one-verb templates. Filling them puts the decimal id right after `create + "/"`. |
| `ImportPaths.FillBatchId` | bulk.go:147-149 | Formatting a one-`%d` template with the batch id consumes the placeholder: the result holds no `%`, and its length is the template's minus two plus the length of the decimal id. |
| `ImportPaths.FillSplit` | bulk.go:147-149 | Filling `p + "%d" + q` (p and q without `%`) yields `p + decimal(id) + q`. |
| `ImportPaths.Decimal` | bulk.go:148 | `%d` prints a non-empty text without `%`, with a leading `-` for negative ids. |
| `ImportPaths.DigitsAreCanonical` | bulk.go:148 | The digits of a non-negative id are characters `0`-`9` only, with no leading zero unless the id is 0. |
| `ImportPaths.DecimalIsCanonical` | bulk.go:148 | The printed id is an optional `-`, present only for negative ids, followed by non-empty canonical decimal digits. |
| `ImportPaths.DecimalRoundTrip` | bulk.go:148 | The id printed into a path reads back as the same id. |
| `ImportPaths.LeadRequestPaths` | bulk.go:146-149 | States the lead object's paths built by `CreateRequestPath`, `StatusRequestPath` and `FailuresRequestPath`: `leads.json?format=csv` for create (bulk.go:108), `leads/batch/<id>.json` for status, and `leads/batch/<id>/failures.json` for failures (bulk.go:202-204). |
| `ImportPaths.CustomRequestPaths` | bulk.go:201-204 | States the custom-object paths built by `CreateRequestPath`, `StatusRequestPath` and `FailuresRequestPath`: `customobjects/n/import.json?format=csv` for create (bulk.go:108), and `customobjects/n/import/<id>/status.json` and `…/<id>/failures.json` (bulk.go:147-149). |
| `ImportPaths.APINameRoundTrip` | bulk.go:36-45 | The API name can be read back from the reference it resolves to, so all three templates embed the same name. |
| `ImportPaths.ReferencesAreDistinct` | bulk.go:29-45 | Distinct API names never resolve to the same reference. |
| `Api.OperationLabels` | bulk.go:55-58 | The operation labels of the `HttpStatus` errors are the client's constants: "create bulk import", "get import status" and "get import failures", plus "describe custom object" (custom.go:77). |
| `Api.Payload` | bulk.go:121-138 | The early returns shared by create and status (the status call repeats them at bulk.go:160-177), in order: non-200 gives an `HttpStatus` error, then a body decode error is passed on, then a non-empty error list gives an API error with all reasons, then a payload decode error is passed on. The decoded payload is returned, unchanged, exactly when none of these applies. |
| `Bulk.WithProcessed` | bulk.go:183-188 | Only `processed` changes. It is the lead counter when that is positive, and the object counter otherwise, including when the lead counter is negative. With non-negative counters of which at most one is set, the set one is chosen and never the zero one. |
| `Bulk.NormaliseProcessed` | bulk.go:183-188 | Every element of the array is replaced in place by its `WithProcessed` form. The length and all other fields stay the same. |
| `Bulk.Create` | bulk.go:121-141 | `Api.Payload` labelled `CreateImport`. A non-200 status gives an error labelled "create bulk import" before any decoding. A body decode error is passed on. A 200 envelope with errors gives an API error carrying all reasons. A payload decode error is passed on. Otherwise the decoded batch list is returned unchanged, and this holds exactly in that case. |
| `Bulk.Get` | bulk.go:160-189 | The same early errors, labelled "get import status". An empty batch list gives "not found". Otherwise the result is the first batch with `processed` derived. |
| `FailureReport.RowsBeforeError` | bulk.go:230-241 | The rows taken are the prefix of reads that deliver a record of the header's width, in order. The read after them, if any, does not deliver one. |
| `FailureReport.ZipFieldsKeys` | bulk.go:236-238 | The field map has exactly the header names as keys. |
| `FailureReport.ZipFieldsLastWins` | bulk.go:236-238 | A name maps to the cell of its last column, so with duplicate names the later column wins. |
| `FailureReport.FailureOfShape` | bulk.go:232-238 | The reason is `record[len(header)-1]`. The keys are exactly `header[0..len(header)-2]`. Each key holds the cell of its last column. |
| `FailureReport.ReasonColumnIsNoField` | bulk.go:233-237 | The header's last name is a key only when an earlier column carries the same name. |
| `FailureReport.ReportStep` | bulk.go:230-241 | A delivered first row contributes the first failure, and the rest of the report follows it in order. |
| `FailureReport.MapRow` | bulk.go:232-238 | The inner loop builds exactly the failure `FailureOf(header, record)`. |
| `FailureReport.ReadReport` | bulk.go:229-242 | The read loop returns one failure per row read before the first read error, in input order. A mid-stream error returns that prefix. |
| `FailureReport.Failures` | bulk.go:215-243 | 404 gives an empty report with no error, and this is checked before the generic check. Any other non-200 gives an error labelled "get import failures". A header read error, including an empty body, is passed on. Otherwise the result is the report of the rows after the header. |
| `FailureReport.OneRowExample` | bulk.go:229-242 | Header `email, first_name, reason` with row `a@x.com, Ann, invalid email` gives one failure: reason "invalid email", fields email and first_name. |
| `CustomObjects.CollectSearchable` | custom.go:155-160 | The collected set is exactly the union of all searchable-field groups. |
| `CustomObjects.MarkSearchable` | custom.go:162-165 | Each field is overwritten in place with its `searchable` flag set to membership of its name. Nothing else changes. |
| `CustomObjects.Marked` | custom.go:155-167 | Field count and order are kept, and so is every attribute other than `searchable`. `fields[i].searchable` holds iff the field's name occurs in some group. The rest of the object is unchanged. |
| `CustomObjects.Describe` | custom.go:137-167 | A non-200 status gives an error labelled "describe custom object". A body decode error is passed on. An empty object list gives "not found", even when the payload decoder reported an error. Otherwise only the first object is examined and returned, marked, together with that decoder error. |
| `DynamicRecords.DecodeRecord` | custom.go:70-74 | Every raw key not bound to a promoted field is in `fields` with its value unchanged, and no bound key is. The promoted attributes hold the decoded values, or zero values when absent or null. A wrong-typed promoted value fails the record, and the error names exactly the promoted keys whose values have the wrong type. |
| `DynamicRecords.Filter` | custom.go:177-221 | The early errors come in order: query encoding, non-200 (before any decoding), body decode, payload decode. Then the call succeeds iff every record decodes. On success there is one result per raw record, in the same order, plus the envelope's next-page token. On failure the error is that of the first failing record, and no partial results are returned. |
| `DynamicRecords.ExampleRecord` | custom.go:70-74 | `{marketoGUID: g1, seq: 3, color: red, size: L}` with those two keys promoted gives `g1`, `3` and fields `{color, size}`. The example assumes `seq` is bound to `Sequence`. |
| `DynamicRecords.ExampleRecordByFieldName` | custom.go:70-74 | Under binding by field name (`Sequence`), a record's `seq` key is not bound. It stays in `fields`, and the sequence number keeps its zero value 0. |

## Left out

- HTTP plumbing is not modelled: building requests, `doRequest`, the `url` join, headers and closing bodies. Answers are inputs. One consequence: in `Filter` (custom.go:181-189) the request header is set before the `http.NewRequest` error is checked. A failed `NewRequest` leaves the request nil, so the call panics on the header instead of returning that error, and the model does not capture this panic.
- `context.Context` is accepted by every call but never used, so there is no cancellation to model.
- Multipart body construction for the create call (bulk.go:91-106) is a wrapper over `mime/multipart`, which is not part of this model. Neither is a byte round-trip through it.
- `encoding/json`, `encoding/csv` and `mapstructure` are foreign libraries. Their outputs are the model's inputs.
  - The CSV reader's field-count check is kept: a record whose width differs from the header's ends the loop like any read error.
  - `mapstructure` binds keys by field name or by its own tag, not by the `json` tags (custom.go:71-72), and matches names case-insensitively. The model leaves the binding to the `Promotion` parameter. `DynamicRecords.ExampleRecord` assumes `seq` is bound to `Sequence`, and `DynamicRecords.ExampleRecordByFieldName` shows the binding by field name.
  - `mapstructure` is taken as strict: a string attribute accepts text, an int attribute accepts a number, and null or absent leaves the zero value.
- `DynamicRecords.DecodeRecord`: JSON numbers are integers here. The truncation of a fractional number into `Sequence` is not modelled, because it is floating point.
- `handleError`, `ErrorForReasons`, `Response`, `Query`/`QueryOption` and the `filterLeads` label are defined in files that are not part of this model.
  - They appear as the `HttpStatus`/`Api` error values and as the query-encoding outcome passed to `Filter`.
  - The text of the filter label is unknown, so `Api.Label` gives none for it.
- `List` (custom.go:92-121) is a plain GET and unmarshal with no logic of its own.
- The `time.Time` metadata fields and the `ObjectState`/`ObjectVersion` constants are data declarations only. State and version are plain strings here.
- API names containing `%` are not modelled: the request-path lemmas require `'%' !in apiName`. `fmt.Sprintf` would embed such a name unescaped, and filling the placeholder afterwards is then not what the code intends.
- Describe and Filter never consult the envelope's error list, and the model follows the code in that. So a 200 envelope with errors and no objects reads as "not found" for Describe.
