# Doc Validator: a verified model of the certificate-validation core

Doc Validator is a certificate-validation service. It has a Flask back end and a React client.

- **Issuers** (institutions) upload documents. These are stored as pre-verified records with suspicion score 0.0 and an HMAC hash.
- **Verifiers** upload a document to check it. The back end hashes the file first:
  - a stored record with the same hash proves the document authentic;
  - otherwise an image-quality and text-pattern analysis gives it a suspicion score.
- The client keeps a login session in browser storage and shows scores in colour bands.

This project models the rule-bearing parts of both sides in Dafny and proves what they guarantee.

| module | models |
|---|---|
| `DocProcess` | the scoring pipeline: image-quality and text-pattern scores, their 0.4/0.6 combination, the verdict bands, the ordered explanation and the error fallbacks |
| `DocumentModel`, `AccountModel` | the records `create_document`, `create_issuer`, `create_verifier` and the institute route build |
| `Store` | the MongoDB collections. They are one object whose sequence fields the routes update in place; `find_one` is the first match |
| `UploadRules` | the extension rule and the ordered validation chain shared by both upload handlers |
| `VerifierRoutes` | the verifier endpoints: upload with hash check, listing with status summary, re-verification, analysis view |
| `IssuerRoutes` | the issuer upload and listing |
| `UserRoutes`, `InstituteRoute` | registration, login, institute registration and listing |
| `BrowserStorage`, `AuthService`, `MockAuth` | `localStorage` and the two client session managers |
| `AnalysisDialog`, `VerifierHomepage`, `IssuerHomepage` | the score bands, status icons and colours, and the history-list updates |

External effects are parameters:
- the OCR text;
- the HMAC hash, which is `None` when hashing raised;
- the image metrics, or an unreadable image;
- the regular-expression matches;
- the cloud-storage result;
- new ids, timestamps and the random score of the mock pages;
- the JWT and the password check;
- every HTTP reply the client receives.

An exception that the source catches is an explicit input (`Fault`, `MetricsFault`, a thrown reply) wherever the code cannot raise it on its own.

Proved facts about the code as written:

- `create_document` ignores the `verified_by` its callers pass and always stores an empty list (`NewDocumentDropsVerifiers`). So:
  - an issuer's upload is "verified" yet names no verifier (`IssuerRoutes.IssuerRecordHasNoVerifier`);
  - the verifier listing, which selects on `verified_by`, finds none of the records the upload routes create (`VerifierRoutes.CreatedRecordsNotListed`). Only re-verification adds a verifier.
- `create_verifier` keeps only the name of a new verifier. A registered verifier therefore has no email.
- For an unknown hash, the analysis reads the image from the cloud URL rather than the temporary file. If that image cannot be read, its quality score is 0.8. The combined score is then at least 0.32 and the upload score at least 0.62, so such an upload is always "suspicious" (`VerifierRoutes.Assess`, `VerifierRoutes.UnknownHashWithUnreadableImageIsSuspicious`).
- No route writes `metaData.verification_status`. The analysis view therefore reports "unknown" for every uploaded record (`VerifierRoutes.UploadedRecordAnalysis`).
- The verifier home page bands scores at 0.3 and 0.7, as the server's verdict does (`VerifierHomepage.BandsMatchServerVerdict`). The analysis dialog uses inclusive bounds 0.2, 0.5 and 0.8. The two pages therefore disagree: 0.25 is "verified" on one and "Medium Risk" on the other (`VerifierHomepage.BandsDisagreeWithDialog`).

The user routes cannot be loaded as written. `server/routes/user_routes.py:5` imports `get_verifier_by_email` from `server/models/verifier_model.py`, which does not define it, so importing the module fails and neither /register nor /login exists. (`server/app.py` registers only the document routes' blueprint in any case.) The model reads that call as the email lookup on the verifier collection, which is what its issuer counterpart does. The following hold of the handlers under that reading, not of the code as written:
- the verifier duplicate-email check never fires (`UserRoutes.VerifierDuplicateCheckNeverFires`);
- a registered verifier can never log in: the lookup gives 404 (`UserRoutes.RegisteredVerifiersCannotLogIn`).

## Model

| member | source | states |
|---|---|---|
| `Text.Lower` | server/services/doc_proccess.py:73 | the lower-cased text has the same length, character by character |
| `Text.AfterLast` | server/routes/verifier_routes.py:23 | `rsplit('.', 1)[1]`: a suffix free of the separator, preceded by it when shorter than the text |
| `Text.BeforeFirst` | client/src/services/mockAuth.js:11 | `split('@')[0]`: a prefix free of '@', followed by it when shorter than the text |
| `Text.Preview` | server/routes/verifier_routes.py:200-205 | text of at most n characters is unchanged; longer text is its first n characters plus "..." |
| `Text.ListPreview` | server/routes/verifier_routes.py:242 | always the first (at most) n characters followed by "..." |
| `Text.TrimStart` | server/services/doc_proccess.py:64 | `strip()` on the left: a suffix starting with a non-space |
| `Text.TrimEnd` | server/services/doc_proccess.py:64 | `strip()` on the right: a prefix ending with a non-space |
| `DocProcess.AnalyzeImageQuality` | server/services/doc_proccess.py:10-57 | the result is exactly the quality analysis of the input image (`IsQualityOf`): an unreadable image scores 0.8, a failure 0.5; otherwise blur, brightness and contrast are kept, the three thresholds set the flags, and the score is 0.3·blurry + 0.2·poor lighting + 0.2·low contrast, in [0, 0.7] |
| `DocProcess.KeywordCount` | server/services/doc_proccess.py:68-74 | the number of distinct keywords occurring in the text is at most the number of keywords |
| `DocProcess.CountKeywords` | server/services/doc_proccess.py:74 | the counting loop computes exactly the keyword count, at most 10 |
| `DocProcess.SuspiciousCount` | server/services/doc_proccess.py:84-85 | at most 3, and 0 exactly when no pattern matched |
| `DocProcess.AnalyzeTextPatterns` | server/services/doc_proccess.py:59-108 | the result is exactly the text analysis of the input text (`IsTextAnalysisOf`): stripped length under 10 gives "Insufficient text" with 0.8; otherwise the keyword count of the lower-cased text (fewer than 2 is an issue), the pattern count, the dates, and the score 0.4/0.3/0.2 by issue, in [0, 0.9] |
| `DocProcess.CombineScores` | server/services/doc_proccess.py:117-129 | 0.4·quality + 0.6·text lies in [0, 1] when both parts do |
| `DocProcess.GetVerdict` | server/services/doc_proccess.py:149-156 | likely_authentic iff score < 0.3, requires_review iff 0.3 ≤ score < 0.7, highly_suspicious iff score ≥ 0.7 |
| `DocProcess.VerdictMonotone` | server/services/doc_proccess.py:149-156 | a higher score never gives a less suspicious verdict |
| `DocProcess.IssueMessagesUnfolded` | server/services/doc_proccess.py:160-174 | the listed issues are the raised flags' messages, in the order blurry, lighting, keywords, suspicious text, dates |
| `DocProcess.GetExplanation` | server/services/doc_proccess.py:158-179 | the appending builds exactly the ordered issue list, joined with "; ", or "Document appears to be authentic" when empty |
| `DocProcess.SelectedSpec` | server/services/doc_proccess.py:160-174 | a message is listed iff its flag is raised, and the list is no longer than the catalogue |
| `DocProcess.ExplanationListsRaisedIssues` | server/services/doc_proccess.py:163-174 | issue k appears in the explanation iff its flag is raised |
| `DocProcess.LowContrastNeverExplained` | server/services/doc_proccess.py:158-179 | the low-contrast flag never changes the explanation |
| `DocProcess.CalculateSuspicionScore` | server/services/doc_proccess.py:114-147 | without a fault, the report holds the quality analysis of the image and the text analysis of the text, their 0.4/0.6 combination, its verdict and the joined explanation (`IsReportOf`); in [0, 0.86], at least 0.32 for an unreadable image; an exception gives 0.5, "error", "Could not analyze document properly" |
| `DocProcess.ProcessDocument` | server/services/doc_proccess.py:181-205 | without a fault, success with the report of this image and text, passing on its score, verdict and explanation (`IsProcessResultOf`); an exception gives success false, 0.5, "error" and no explanation |
| `DocProcess.QualityDetermined` | server/services/doc_proccess.py:10-57 | two quality analyses of the same image are equal |
| `DocProcess.TextAnalysisDetermined` | server/services/doc_proccess.py:59-108 | two text analyses of the same text and matches are equal |
| `DocProcess.ProcessOutcomeDetermined` | server/services/doc_proccess.py:181-205 | two results of process_document on the same inputs agree on success, score, verdict and explanation |
| `DocProcess.UnreadableImageScoreFloor` | server/services/doc_proccess.py:18-19 | an unreadable image alone puts the combined score at 0.32 or more |
| `DocumentModel.NewDocument` | server/models/document_model.py:2-13 | source, issuer and hash copied; status "pending", score 0.0, empty OCR data and metadata by default; verified_by always empty |
| `DocumentModel.NewDocumentDropsVerifiers` | server/models/document_model.py:7 | a verifier list passed in never reaches the stored record |
| `DocumentModel.WithVerifier` | server/models/document_model.py:19-23 | `$push` appends the id at the end without de-duplication and changes nothing else |
| `AccountModel.NewIssuer` | server/models/issuer_model.py:4-14 | every field passed is kept, role "issuer", no documents |
| `AccountModel.NewVerifier` | server/models/verifier_model.py:3-11 | only the name is kept: no email, password or institution; role "verifier" |
| `Store.FirstIndex` | server/models/document_model.py:17 | `find_one`: the first matching position, or none when nothing matches |
| `Store.FirstIndexAppend` | server/models/issuer_model.py:19-20 | an insert never changes an existing first match and is found only when nothing earlier matches |
| `Store.FindAccountByEmail` | server/models/issuer_model.py:19-20 | the account found has that email; none means no account has it |
| `Store.PushDocument` | server/routes/verifier_routes.py:172-175 | `$push`: only the first account with the id changes, gaining the item at the end of its list; nothing changes when no account has it |
| `Store.AddDocumentOnce` | server/routes/verifier_routes.py:313-316 | `$addToSet`: only the first account with the id can change, gaining the item at the end only when its list lacks it; nothing changes when no account has it |
| `Store.Reverified` | server/routes/verifier_routes.py:304-310 | the verifier is in the list afterwards, added once at the end only when absent, and the score is replaced |
| `Store.Mongo.CreateDocument` | server/models/document_model.py:2-14 | exactly the new record is appended and its id returned |
| `Store.Mongo.AddVerifier` | server/models/document_model.py:19-23 | only the first document with that id gains the verifier; nothing changes when there is none |
| `Store.Mongo.ReverifyDocument` | server/routes/verifier_routes.py:304-310 | only the first document with that id is re-verified |
| `Store.Mongo.AddVerifierDocumentOnce` | server/routes/verifier_routes.py:313-316 | the verifier collection becomes its `$addToSet` update |
| `Store.Mongo.InsertIssuer` | server/models/issuer_model.py:14 | the issuer is appended |
| `Store.Mongo.InsertVerifier` | server/models/verifier_model.py:11 | the verifier is appended |
| `Store.Mongo.InsertInstitute` | server/models/institute_model.py:11 | the institute is appended |
| `Store.Mongo.PushIssuerDocument` | server/routes/issuer_routes.py:127-130 | the issuer collection becomes its `$push` update |
| `Store.Mongo.PushVerifierDocument` | server/routes/verifier_routes.py:172-175 | the verifier collection becomes its `$push` update |
| `UploadRules.AllowedFileIff` | server/routes/verifier_routes.py:18-23 | accepted iff a '.' occurs and the lower-cased text after the last '.' is one of the seven extensions |
| `UploadRules.AfterLastIsSuffixAfterLastDot` | server/routes/issuer_routes.py:17-22 | the text after the last '.' is the suffix after the last dot position |
| `UploadRules.UpperCaseExtensionAccepted` | server/routes/issuer_routes.py:19-22 | "x.PDF" is accepted |
| `UploadRules.DoubleExtensionRejected` | server/routes/verifier_routes.py:20-23 | "a.pdf.exe" is rejected |
| `UploadRules.MissingExtensionRejected` | server/routes/verifier_routes.py:20-23 | "noext" and "x." are rejected |
| `UploadRules.LookupActor` | server/routes/issuer_routes.py:50-53 | the account found has the id; a missing one gives 404; a malformed issuer id gives 500 |
| `UploadRules.FindAccountByIdSpec` | server/routes/verifier_routes.py:51-54 | an account is found iff one has that id |
| `UploadRules.ValidateUpload` | server/routes/verifier_routes.py:31-54 | no file, empty name, bad extension, missing id (400 each), then a malformed issuer id 500 and an unknown account 404 with the role's message, in that order; accepted iff every check passes |
| `VerifierRoutes.ClassifyHash` | server/routes/verifier_routes.py:87-97 | a missing or empty hash is a failure; a match is the first stored record with that hash, as `find_one` returns it; not found means no record has it |
| `VerifierRoutes.Decide` | server/routes/verifier_routes.py:104-139 | match gives 0.0/verified/authentic; unknown hash min(0.8, s+0.3), hash_not_verified, pending_review iff < 0.4; failed hash keeps the analysis, pending_review iff likely_authentic or requires_review; "verified" iff match |
| `VerifierRoutes.UnknownHashWithUnreadableImageIsSuspicious` | server/routes/verifier_routes.py:114-123 | an analysis score of 0.32 or more makes an unknown hash suspicious with score at least 0.62 |
| `VerifierRoutes.Assess` | server/routes/verifier_routes.py:87-139 | the hash outcome; no analysis after a match, else process_document of the cloud image (unknown hash) or the temporary file's image (hashing failed) on the OCR text; the decision and explanation are those of that outcome and analysis; an unknown hash with an unreadable cloud image is always suspicious |
| `VerifierRoutes.VerifierDocumentData` | server/routes/verifier_routes.py:142-166 | the record asks for the verifier in verified_by, has no issuer, carries status, score and hash, document type defaulting to "unknown", and no verification status |
| `VerifierRoutes.UploadDocument` | server/routes/verifier_routes.py:25-217 | validation first; cloud failure 500; a malformed verifier id 500; errors change nothing; otherwise 201 (`UploadRecorded`): one record stored and its id pushed, score, status, verdict and explanation those of the analysis of the inputs, hash_verified iff status is hash_verified, existing_issuer the match's issuer, notes "Analysis completed: " + explanation, 200- and 100-character previews |
| `VerifierRoutes.RecordUpload` | server/routes/verifier_routes.py:87-210 | an accepted upload past every check is recorded as `UploadRecorded` states; issuers and institutes stay |
| `VerifierRoutes.StoreUpload` | server/routes/verifier_routes.py:169-175 | the new record is appended and its id pushed onto the verifier's list; nothing else changes |
| `VerifierRoutes.FormatDocument` | server/routes/verifier_routes.py:236-245 | id, status and score copied; preview always ends "..."; "Unknown" and "unknown" defaults |
| `VerifierRoutes.FormatDocuments` | server/routes/verifier_routes.py:234-246 | one entry per document, in query order |
| `VerifierRoutes.CountStatus` | server/routes/verifier_routes.py:249-253 | a status count never exceeds the number of entries |
| `VerifierRoutes.SummaryWithinTotal` | server/routes/verifier_routes.py:249-259 | the three summary counts add up to at most total_documents |
| `VerifierRoutes.VerifiedBy` | server/routes/verifier_routes.py:231 | exactly the documents whose verified_by holds the verifier |
| `VerifierRoutes.GetVerifierDocuments` | server/routes/verifier_routes.py:219-269 | 404 for an unknown verifier, 500 for a known one with a malformed id, else a listing with the verifier's id, name and institution; total equals the entries, one per matching document in order, with exact status counts |
| `VerifierRoutes.CreatedRecordsNotListed` | server/routes/verifier_routes.py:231 | a record made by create_document is never selected by the verifier listing |
| `VerifierRoutes.AnalysisOf` | server/routes/verifier_routes.py:345-359 | hash_verified iff status "verified"; verified_by reported as its length; existing_issuer only when an issuer is set; "unknown" and "No analysis available" defaults |
| `VerifierRoutes.GetDocumentAnalysis` | server/routes/verifier_routes.py:333-371 | malformed id 500, unknown id 404, else the view of the first stored document with that id |
| `VerifierRoutes.UploadedRecordAnalysis` | server/routes/verifier_routes.py:345-359 | an uploaded record's view says "unknown", no verifier and no issuer; hash_verified iff its status is "verified" |
| `VerifierRoutes.VerifyDocumentById` | server/routes/verifier_routes.py:271-331 | missing body 500, missing id 400, unknown verifier 404, malformed document id 500, unknown document 404, malformed verifier id 500, in that order; errors change nothing; a request past them all is recorded (`ReverifyRecorded`) |
| `VerifierRoutes.Rescore` | server/routes/verifier_routes.py:293-301 | process_document's score on the stored text when the document has a source and a text, else 0.5; in [0, 0.86] |
| `VerifierRoutes.RecordReverification` | server/routes/verifier_routes.py:293-324 | the first document with the id gets the verifier once and the new score; the verifier gets the document once; the answer carries both ids and that score |
| `IssuerRoutes.IssuerDocumentData` | server/routes/issuer_routes.py:98-121 | status "verified", score 0.0, the issuer as issuer and as sole requested verifier, document type defaulting to "certificate" |
| `IssuerRoutes.UploadDocument` | server/routes/issuer_routes.py:24-154 | validation first; cloud failure 500; errors change nothing; success stores one record, pushes its id and reports 0.0, "verified" and the 100-character preview |
| `IssuerRoutes.IssuerRecordHasNoVerifier` | server/routes/issuer_routes.py:100-109 | the stored issuer record is verified with score 0.0 and the issuer's id, yet its verified_by is empty |
| `IssuerRoutes.FormatDocument` | server/routes/issuer_routes.py:173-181 | preview always ends "..."; document type defaults to "certificate" |
| `IssuerRoutes.FormatDocuments` | server/routes/issuer_routes.py:171-182 | one entry per document, in query order |
| `IssuerRoutes.IssuedBy` | server/routes/issuer_routes.py:168 | exactly the documents whose issuer is that account |
| `IssuerRoutes.UploadedRecordListed` | server/routes/issuer_routes.py:98-130 | a newly stored record of the issuer appears last in the issuer's listing |
| `IssuerRoutes.GetIssuerDocuments` | server/routes/issuer_routes.py:156-197 | malformed id 500, unknown issuer 404, else a listing with the issuer's name; total equals the entries, one per record of the issuer, in order |
| `UserRoutes.CheckRegistration` | server/routes/user_routes.py:14-64 | no body first, then all four fields, then the role, then a duplicate email in that role's collection only (400 each); accepted iff all pass; institution defaults to "" |
| `UserRoutes.RegisterUser` | server/routes/user_routes.py:11-70 | a rejection changes nothing; acceptance inserts one account of the role and answers with the id and the role echoed |
| `UserRoutes.VerifierRecordInvisibleToEmailLookup` | server/models/verifier_model.py:3-11 | adding a registered verifier never changes an email lookup |
| `UserRoutes.VerifierDuplicateCheckNeverFires` | server/routes/user_routes.py:52-64 | the same verifier registration is accepted again |
| `UserRoutes.IssuerDuplicateRejected` | server/routes/user_routes.py:38-42 | a registered issuer's email is rejected the next time |
| `UserRoutes.SameEmailBothRoles` | server/routes/user_routes.py:38-64 | an email registered as issuer can still register as verifier |
| `UserRoutes.LoginUser` | server/routes/user_routes.py:78-136 | no body, missing field, bad role 400; unknown email in that role 404; record without password 500; wrong password 401; success iff the record exists and the password matches, echoing the role |
| `UserRoutes.RegisteredVerifiersCannotLogIn` | server/routes/user_routes.py:103-108 | with only route-registered verifiers, a verifier login always gives 404 |
| `InstituteRoute.FindInstituteByName` | server/routes/institute_route.py:22 | the institute found has the name; none means no institute has it |
| `InstituteRoute.CheckInstitute` | server/routes/institute_route.py:11-24 | no JSON body 500; name, type, secret key in that order (400); an existing name 409, and 409 only then; passes iff all hold |
| `InstituteRoute.RegisterInstitute` | server/routes/institute_route.py:8-44 | a rejection inserts nothing; success inserts the institute and answers 201 with the requested name; the answer is a success exactly when every check passes |
| `InstituteRoute.RegisteredNameRefused` | server/routes/institute_route.py:22-24 | a registered name is refused with 409 from then on |
| `InstituteRoute.ListInstitutes` | server/routes/institute_route.py:51-68 | one entry per stored institute, in order, with its id, name and type as stored |
| `InstituteRoute.RegistrationExtendsList` | server/routes/institute_route.py:61-68 | a registration adds exactly one entry at the end of the list |
| `BrowserStorage.StoredObject` | client/src/services/AuthService.js:69-73 | an object is read back iff the key holds a serialised object |
| `BrowserStorage.LocalStorage.SetItem` | client/src/services/AuthService.js:43 | only that key changes |
| `BrowserStorage.LocalStorage.RemoveItem` | client/src/services/AuthService.js:86 | only that key is removed |
| `AuthService.ClientUser` | client/src/services/AuthService.js:32-39 | the server's user fields, its role as userType and its token, and nothing else |
| `AuthService.ErrorText` | client/src/services/AuthService.js:57 | the error's message when it has one, else the fallback |
| `AuthService.LoginResult` | client/src/services/AuthService.js:26-60 | success iff the reply has a user; "Invalid login response" without one; a throw gives its message or "Login failed" |
| `AuthService.Session.Login` | client/src/services/AuthService.js:26-60 | success writes the record to memory and 'currentUser'; a failure leaves both unchanged |
| `AuthService.Session.Register` | client/src/services/AuthService.js:7-23 | a registration throw gives its message or "Registration failed" and no login; otherwise the login's outcome with userType falling back to userRole |
| `AuthService.Session.GetCurrentUser` | client/src/services/AuthService.js:63-81 | memory first without reading storage; else the stored object, cached; unparsable text removed and null returned |
| `AuthService.Session.Logout` | client/src/services/AuthService.js:84-87 | memory and the key cleared |
| `AuthService.Session.IsLoggedIn` | client/src/services/AuthService.js:90-92 | true iff getCurrentUser finds a user, with its effects |
| `AuthService.LogoutIdempotent` | client/src/services/AuthService.js:84-87 | after logout no user is stored, and a second logout changes nothing |
| `AuthService.StoredUserReadBack` | client/src/services/AuthService.js:43-73 | the record login stores is read back unchanged |
| `AuthService.ServerReply` | client/src/services/ApiService.js:15-19 | an HTTP error becomes a throw with a message; a successful login reply carries the user and the role |
| `AuthService.ServerLoginRoundTrip` | client/src/services/AuthService.js:26-45 | against the server's login, the client logs in iff the server accepts, and the stored userType is the requested role |
| `MockAuth.MockUser` | client/src/services/mockAuth.js:8-14 | the email, the part before its first '@' as name, the given userType |
| `MockAuth.RegisteredUser` | client/src/services/mockAuth.js:26-30 | the caller's fields override the generated id; registeredAt is always set |
| `MockAuth.StoredLookup` | client/src/services/mockAuth.js:45-49 | a corrupt stored value is a parse error; otherwise the stored object or none |
| `MockAuth.MockSession.Login` | client/src/services/mockAuth.js:5-22 | succeeds iff email and password are non-empty, storing the user in memory and 'mockUser'; otherwise "Invalid credentials" and no change |
| `MockAuth.MockSession.Register` | client/src/services/mockAuth.js:24-35 | always succeeds and stores the new user |
| `MockAuth.MockSession.Logout` | client/src/services/mockAuth.js:37-40 | memory and 'mockUser' cleared |
| `MockAuth.MockSession.GetCurrentUser` | client/src/services/mockAuth.js:42-52 | memory first; else the stored object, cached; unparsable text escapes as an error and is not removed |
| `MockAuth.MockSession.IsAuthenticated` | client/src/services/mockAuth.js:54-56 | true iff a user is found; the parse error escapes |
| `MockAuth.CorruptValuePersists` | client/src/services/mockAuth.js:45-49 | a corrupt stored value fails every lookup |
| `MockAuth.CallerIdWins` | client/src/services/mockAuth.js:26-28 | a caller-supplied id replaces the generated one |
| `AnalysisDialog.RiskBand` | client/src/components/AnalysisDialog.jsx:36-41 | four bands with inclusive upper bounds 0.2, 0.5, 0.8 |
| `AnalysisDialog.PresentationAgrees` | client/src/components/AnalysisDialog.jsx:36-48 | text colour, background, marker and risk label always name the same band |
| `AnalysisDialog.RiskBandMonotone` | client/src/components/AnalysisDialog.jsx:36-41 | a higher score never falls in a lower band |
| `AnalysisDialog.BoundaryScores` | client/src/components/AnalysisDialog.jsx:215-217 | 0.2, 0.5 and 0.8 belong to the lower band |
| `AnalysisDialog.StatusIcon` | client/src/components/AnalysisDialog.jsx:50-61 | ❓ iff the status is not verified, suspicious or rejected |
| `AnalysisDialog.StoredStatusIcons` | client/src/components/AnalysisDialog.jsx:50-61 | of the statuses the verifier upload stores, only pending_review shows ❓ |
| `AnalysisDialog.ServerReply` | client/src/services/ApiService.js:15-19 | a found analysis is delivered; an HTTP error becomes a throw with a message |
| `AnalysisDialog.Dialog.FetchAnalysis` | client/src/components/AnalysisDialog.jsx:15-34 | loading ends false; an analysis is set; otherwise the error is 'No analysis data received', the message or 'Failed to load analysis', and the old analysis stays |
| `AnalysisDialog.Dialog.OnOpenOrDocumentChange` | client/src/components/AnalysisDialog.jsx:9-13 | nothing happens unless the dialog is open with a document id; then the fetch's effect |
| `AnalysisDialog.Dialog.Panel` | client/src/components/AnalysisDialog.jsx:63-217 | nothing while closed or before an analysis; otherwise the label and background of the score's band |
| `VerifierHomepage.Band` | client/src/components/VerifierHomepage.jsx:45 | three bands with exclusive bounds 0.3 and 0.7 |
| `VerifierHomepage.StatusColor` | client/src/components/VerifierHomepage.jsx:62-73 | gray iff the status is not verified, pending or suspicious |
| `VerifierHomepage.BandsAgree` | client/src/components/VerifierHomepage.jsx:45-50 | status, result text, bar colour and status colour name the same band |
| `VerifierHomepage.BandsMatchServerVerdict` | client/src/components/VerifierHomepage.jsx:45 | the page's band is the server verdict's rank |
| `VerifierHomepage.BandsDisagreeWithDialog` | client/src/components/VerifierHomepage.jsx:45 | 0.25 is "verified" here but "Medium Risk" in the dialog |
| `VerifierHomepage.EntryFor` | client/src/components/VerifierHomepage.jsx:40-51 | the entry's status and result are its score's band |
| `VerifierHomepage.Page.HandleVerify` | client/src/components/VerifierHomepage.jsx:31-60 | no file: nothing changes; otherwise the entry is prepended, earlier entries follow in order, length grows by one, the form resets |
| `VerifierHomepage.HistoryStaysConsistent` | client/src/components/VerifierHomepage.jsx:7-55 | the samples agree with the bands and every verification keeps the whole history consistent |
| `IssuerHomepage.Page.constructor` | client/src/components/IssuerHomepage.jsx:5-16 | documentType starts as 'certificate' with one sample entry |
| `IssuerHomepage.Page.SelectDocumentType` | client/src/components/IssuerHomepage.jsx:94-96 | the select is the one writer of documentType |
| `IssuerHomepage.Page.HandleUpload` | client/src/components/IssuerHomepage.jsx:23-46 | no file: nothing changes; otherwise a 'verified' entry named after the file with the current type is prepended, earlier entries unchanged, the form resets |

## Left out

- OCR (Tesseract, PyMuPDF, downloads): the extracted text is an input.
- The HMAC-SHA512 hash of the file: the hash is an input. `None` stands for the exception path.
- The Cloudinary upload: its outcome is an input. The temporary file and its removal are not modelled.
- The cv2 and NumPy metrics: blur, brightness and contrast are `real` inputs.
- The regular-expression searches: their matches are inputs.
- The `except` branch of `analyze_text_patterns`: it is not modelled, because nothing the model computes inside that function can raise.
- `round(final_score, 2)` and `toFixed`: scores are exact `real` values.
- `DocProcess.CalculateSuspicionScore`: the rounded score is modelled as the unrounded one. The verdict already uses the unrounded score in the code.
- Timestamps (`issue_time`, `upload_timestamp`, `created_at`, `loginTime`, dates): they are not modelled, or are parameters.
- `VerifierRoutes.UploadDocument`, `IssuerRoutes.UploadDocument`: `server/models/document_model.py:8` passes a datetime as the time-zone argument of `datetime.now`, which raises a TypeError. As written, every upload that reaches `create_document` therefore answers 500 "Failed to upload document" and stores nothing, after the cloud upload. The model assumes record creation succeeds, so that the 201 path it states is the one the handlers were written for.
- `UserRoutes.CheckRegistration`, `UserRoutes.LoginUser`: the import failure described above is not modelled; they describe the handlers as they would run with the lookup defined.
- `UserRoutes.CheckRegistration`, `UserRoutes.LoginUser`, `InstituteRoute.CheckInstitute`: a body that is not JSON is read as `None`, as `request.get_json()` and `request.json` return it in Flask before 2.1. That gives the user routes' 400 "No data provided" and the institute route's 500. Flask 2.1 and later raise on such a body instead, and the handlers' `except` answers 500 for all three.
- Fields that only echo inputs are dropped: `file_size`, `cloudinary_public_id`, `storage_type`, `text_length`, `extraction_method`, the `allowed_types` list of the 400 reply, and `details` of error replies.
- The JWT (RFC 7519) and werkzeug password hashing: the token and the hash are inputs; the password check is a function parameter.
- The difference between an ObjectId and its 24-digit text is not modelled; ids are strings, compared as text. In particular, `get_verifier` looks up the raw string against ObjectId keys. The model treats that lookup as finding the account with that id.
- `Text.Lower`: lower-cases ASCII letters only. Python's `lower()` also folds other scripts.
- JSON values other than flat objects of strings and `null` in browser storage.
- `AuthService.Session.GetCurrentUser`, `MockAuth.MockSession.GetCurrentUser`: a stored JSON number, string or array is not modelled.
- `UserRoutes.CheckRegistration`, `UserRoutes.LoginUser`, `InstituteRoute.CheckInstitute`: JSON bodies are maps from keys to strings. Non-string values, and the exceptions they could cause, are not modelled.
- `InstituteRoute.ListInstitutes`: the model does not tell an absent key from a stored null; both are `None`. So it does not state the `""` default of `institute.get("type", "")` or the 500 "Failed to fetch institutes" that `institute["name"]` raises for a record without a `name` key (server/routes/institute_route.py:61-80). `create_institute` (server/models/institute_model.py:3-11) always writes both keys, so neither fires for a record the routes stored. The model copies the stored name and type.
- `VerifierRoutes.VerifierDocumentData`, `VerifierRoutes.UploadRecorded`: `scoreText`, Python's f-string rendering of the float score inside `verification_notes`, is an unconstrained input. The model does not relate that text to the stored score, and the analysis view shows this note as its explanation.
- `get_institute_by_id` (server/routes/institute_route.py:47-49): it only returns the result of a lookup; there is no rule to state.
- `server/routes/document_routes.py`, the watermark service, and application wiring are not part of this model.
- `VerifierHomepage.Page.HandleVerify`, `IssuerHomepage.Page.HandleUpload`: the timer's callback is modelled as running at once. Two overlapping uploads, and the stale list the callback captures, are not modelled.
- Rendering (JSX markup) is not modelled, apart from the risk panel and the rule that a closed dialog renders nothing.
- `ApiService` key renaming is modelled only for login: `AuthService.RequestBody` sends userType as `role`.
