# document-vault-web: a Dafny model of its core

document-vault-web is a browser front end for a document store. Users upload files,
browse a folder tree, filter it by name, and open a document in a viewer. This project
models the logic behind those screens in Dafny and proves properties about it:

- **Upload queue** (`upload_queue.dfy`): the `UploadQueue` class. It queues files and
  runs at most `maxConcurrentUploads` uploads at a time. It tracks every file's
  progress in an insertion-ordered map and reports a snapshot to a listener after each
  change. It also supports cancelling, clearing finished entries and computing
  statistics. The class keeps the source's fields. Every method is proved equal to a
  transition function on a `State` value, and the invariants and outcomes are lemmas
  about those functions. Network events (progress, success, failure) are methods that
  the environment calls.
- **File type detection** (`file_type_detector.dfy`): classifies a stored document as
  PDF, image or unsupported, first from its declared type and then from its storage
  URL. It also maps file names to extensions and extensions to MIME types.
- **Drag-and-drop filter** (`drag_and_drop.dfy`):
  - the accepted types are trimmed and lower-cased;
  - a file is allowed by its extension, its dotted extension or its MIME type;
  - dropped files are split into allowed and rejected;
  - the error message for rejected files is built;
  - the upload folder name comes from the custom name or the top directory of the
    first file's relative path.

  The drop zone is a class whose `HandleFiles` records the error it sets and the
  upload call it makes.
- **Tree filter** (`document_tree.dfy`, `documents_explorer.dfy`): the explorer's
  recursive, case-insensitive name filter over the document tree.
- **Node conversion** (`document_converter.dfy`): turns tree nodes into the folder
  view's items.
- **Folder navigation** (`folder_navigation.dfy`): the current folder, its name and
  items, and the history stack. Covers navigating into a folder, into a child by id,
  back, and looking up a clicked file.
- **Toasts** (`toasts.dfy`): the provider's list of notifications, adding with
  defaults and removing by id, and the four typed helpers.
- **PDF viewer** (`pdf_viewer.dfy`): page number and zoom. The zoom scale is counted
  in quarters: the initial 1.0 is 4, the minimum 0.5 is 2, the maximum 3.0 is 12, and
  each step is 1.

Shared definitions:
- `wrappers.dfy`: `Option`.
- `text.dfy`: ASCII lower-casing, trimming, substring search, split helpers and
  decimal rendering.
- `sequences.dfy`: order-preserving filtering (`Select`) and subsequence embeddings.
- `browser_file.dfy`: the browser `File` (name, MIME type, relative path).

JavaScript optional or falsy strings are `Option<string>`, combined with an emptiness
check wherever the source tests truthiness.

## Model

| member | source | states |
|---|---|---|
| UploadQueueModel.UploadQueue.constructor | src/features/document-explorer/services/uploadQueue.ts:20-29 | The queue starts empty, with no active uploads and no entries; the invariant holds |
| UploadQueueModel.InitInv | src/features/document-explorer/services/uploadQueue.ts:20-29 | The initial state satisfies the queue invariant and its snapshot is empty |
| UploadQueueModel.UploadQueue.NotifyProgressUpdate | src/features/document-explorer/services/uploadQueue.ts:130-134 | The listener, if any, receives the snapshot of all entries in insertion order; without one nothing is recorded |
| UploadQueueModel.UploadQueue.UpdateProgress | src/features/document-explorer/services/uploadQueue.ts:122-128 | An existing entry is merged with the updates and the listener notified; an unknown id changes nothing |
| UploadQueueModel.UploadQueue.StartUpload | src/features/document-explorer/services/uploadQueue.ts:64-87 | Starting an item makes it active and in flight, marks its entry uploading at 0 and sends its request |
| UploadQueueModel.UploadQueue.ProcessQueue | src/features/document-explorer/services/uploadQueue.ts:55-62 | The loop starts items from the head of the queue while a slot is free; the new state and notifications equal the process transition |
| UploadQueueModel.ProcessStops | src/features/document-explorer/services/uploadQueue.ts:56 | After processing, the queue is empty or the active uploads fill the ceiling |
| UploadQueueModel.ProcessFrame | src/features/document-explorer/services/uploadQueue.ts:55-62 | Processing only removes a prefix of the queue; entry keys, insertion order and the id counter are unchanged |
| UploadQueueModel.ProcessSends | src/features/document-explorer/services/uploadQueue.ts:57-59 | The requests sent are exactly the dequeued prefix, in queue order |
| UploadQueueModel.ProcessActivates | src/features/document-explorer/services/uploadQueue.ts:57-67 | The active and in-flight sets grow by exactly the ids of the dequeued prefix |
| UploadQueueModel.ProcessEntries | src/features/document-explorer/services/uploadQueue.ts:71 | Dequeued entries become uploading at 0; every other entry is unchanged |
| UploadQueueModel.ProcessInv | src/features/document-explorer/services/uploadQueue.ts:55-62 | Processing preserves the queue invariant |
| UploadQueueModel.UploadQueue.EnqueueFiles | src/features/document-explorer/services/uploadQueue.ts:34-47 | Each file is queued under a fresh id with a pending entry at 0; the ids returned are the new ones in file order |
| UploadQueueModel.EnqueueLoop | src/features/document-explorer/services/uploadQueue.ts:34-47 | The loop over the files gives the state of enqueueing them all and hands out the next ids in file order |
| UploadQueueModel.EnqueueAllQueue | src/features/document-explorer/services/uploadQueue.ts:34-47 | Enqueueing appends one queue item per file, in order, and advances the counter by the file count; nothing else changes |
| UploadQueueModel.EnqueueAllKeys | src/features/document-explorer/services/uploadQueue.ts:39-45 | The insertion order grows by the new ids; the keys are the old ones plus exactly the new ids |
| UploadQueueModel.EnqueueAllEntries | src/features/document-explorer/services/uploadQueue.ts:39-45 | Old entries are untouched; each new id maps to a pending entry for its file |
| UploadQueueModel.EnqueueAllInv | src/features/document-explorer/services/uploadQueue.ts:34-47 | Enqueueing preserves the queue invariant |
| UploadQueueModel.UploadQueue.AddFiles | src/features/document-explorer/services/uploadQueue.ts:31-53 | Queues the files, notifies once, processes the queue and returns the new ids in file order |
| UploadQueueModel.AddFresh | src/features/document-explorer/services/uploadQueue.ts:31-53 | The returned ids are distinct and were never used before; each maps to its file with status pending or uploading; the insertion order grows by exactly those ids |
| UploadQueueModel.AddKeeps | src/features/document-explorer/services/uploadQueue.ts:31-53 | Requests sent plus the queue after adding equal those before plus the new items, so no file is lost or duplicated |
| UploadQueueModel.AddInv | src/features/document-explorer/services/uploadQueue.ts:31-53 | Adding files preserves the queue invariant |
| UploadQueueModel.UploadQueue.OnUploadProgress | src/features/document-explorer/services/uploadQueue.ts:88-96 | Only a progress event that knows the total updates the entry, to uploading at the given percentage |
| UploadQueueModel.ProgressInv | src/features/document-explorer/services/uploadQueue.ts:88-96 | A progress event for an active upload preserves the invariant |
| UploadQueueModel.UploadQueue.Settle | src/features/document-explorer/services/uploadQueue.ts:100-119 | Applies the outcome's update, then frees the slot and processes the queue |
| UploadQueueModel.UploadQueue.OnUploadSuccess | src/features/document-explorer/services/uploadQueue.ts:100-104 | A resolved request completes the entry at 100 with the response, then frees its slot |
| UploadQueueModel.UploadQueue.OnUploadFailure | src/features/document-explorer/services/uploadQueue.ts:105-119 | A rejected request marks the entry as an error at 0, with the thrown message or "Upload failed", then frees its slot |
| UploadQueueModel.SettleOutcome | src/features/document-explorer/services/uploadQueue.ts:100-119 | After settling, the entry carries the outcome, the id is neither active nor in flight, the keys are unchanged, and the queue is drained up to the ceiling |
| UploadQueueModel.ReleaseOutcome | src/features/document-explorer/services/uploadQueue.ts:113-119 | The same outcome for any id that is not queued |
| UploadQueueModel.ProcessKeepsOut | src/features/document-explorer/services/uploadQueue.ts:113-118 | Draining the queue never starts or changes an id that is not queued, and keeps the keys |
| UploadQueueModel.SettleInv | src/features/document-explorer/services/uploadQueue.ts:100-119 | Settling an in-flight upload preserves the invariant |
| UploadQueueModel.UploadQueue.CancelUpload | src/features/document-explorer/services/uploadQueue.ts:140-158 | Forgets the active upload, removes the first queued item with the id, and marks the entry as an error "Upload cancelled" |
| UploadQueueModel.CancelOutcome | src/features/document-explorer/services/uploadQueue.ts:140-158 | After cancelling, the id is neither queued nor active; the queue is the old one without that item; keys are kept; the entry is a cancelled error that keeps its progress and result; every other entry, the requests sent, the in-flight set, the next id, the order and the limit are unchanged |
| UploadQueueModel.CancelFrame | src/features/document-explorer/services/uploadQueue.ts:140-158 | Cancelling merges the cancel update into the entry and changes no other entry and no field besides the queue and the active set, from which it removes the id |
| UploadQueueModel.CancelInv | src/features/document-explorer/services/uploadQueue.ts:140-158 | Cancelling preserves the invariant |
| UploadQueueModel.UploadQueue.CancelAllUploads | src/features/document-explorer/services/uploadQueue.ts:160-177 | Empties the active set and the queue, then cancels each unsettled entry in insertion order |
| UploadQueueModel.UploadQueue.CancelEntries | src/features/document-explorer/services/uploadQueue.ts:168-176 | The loop over the entries equals the cancel-each transition, with one notification per cancelled entry |
| UploadQueueModel.CancelEachSpec | src/features/document-explorer/services/uploadQueue.ts:168-176 | Each listed pending or uploading entry becomes a cancelled error; every other entry and field is unchanged |
| UploadQueueModel.CancelAllSpec | src/features/document-explorer/services/uploadQueue.ts:160-177 | After cancelling all, nothing is queued or active, every formerly unsettled entry is cancelled, every entry is settled, and the invariant holds |
| UploadQueueModel.CancelAllCovers | src/features/document-explorer/services/uploadQueue.ts:160-177 | Cancelling all reaches every entry and changes only the queue, the active set and the entries |
| UploadQueueModel.UploadQueue.ClearCompleted | src/features/document-explorer/services/uploadQueue.ts:179-190 | Deletes the completed and failed entries, then notifies once |
| UploadQueueModel.ClearSpec | src/features/document-explorer/services/uploadQueue.ts:179-190 | Exactly the unsettled entries remain, unchanged; queue and active set are untouched; the invariant holds |
| UploadQueueModel.UnsettledSpec | src/features/document-explorer/services/uploadQueue.ts:179-190 | The kept insertion order holds exactly the listed ids whose entries are unsettled, and stays free of duplicates |
| UploadQueueModel.CollectSettled | src/features/document-explorer/services/uploadQueue.ts:180-185 | The loop collects the ids of completed or failed entries in insertion order |
| UploadQueueModel.DeleteAll | src/features/document-explorer/services/uploadQueue.ts:188 | The loop deletes exactly the given keys from the map |
| UploadQueueModel.UploadQueue.GetProgress | src/features/document-explorer/services/uploadQueue.ts:136-138 | Returns one value per entry, in insertion order, and every entry appears |
| UploadQueueModel.SnapshotSpec | src/features/document-explorer/services/uploadQueue.ts:136-138 | The snapshot has one element per key, the i-th being the entry of the i-th inserted id |
| UploadQueueModel.UploadQueue.IsActive | src/features/document-explorer/services/uploadQueue.ts:192-194 | True iff something is queued or active, which holds iff some entry is pending or uploading |
| UploadQueueModel.ActiveIff | src/features/document-explorer/services/uploadQueue.ts:192-194 | Work remains iff some entry is unsettled |
| UploadQueueModel.Tally | src/features/document-explorer/services/uploadQueue.ts:196-232 | The counting loop returns the number of entries with each status |
| UploadQueueModel.UploadQueue.GetStats | src/features/document-explorer/services/uploadQueue.ts:196-232 | The per-status counts add up to the total; pending equals the queue length; uploading equals the active count and stays within the ceiling |
| UploadQueueModel.StatsSpec | src/features/document-explorer/services/uploadQueue.ts:196-232 | Under the invariant, pending and uploading counts equal the queue length and the active count, which stays within the ceiling |
| UploadQueueModel.CountsAddUp | src/features/document-explorer/services/uploadQueue.ts:196-232 | The four status counts of a status list sum to its length |
| UploadQueueModel.FindIndex | src/features/document-explorer/services/uploadQueue.ts:148 | The index found is that of the first item with the id, or -1 when no item has it |
| UploadQueueModel.FindIndexAbsent | src/features/document-explorer/services/uploadQueue.ts:148-149 | The search finds nothing exactly when the id is not queued |
| UploadQueueModel.RemoveFirstSpec | src/features/document-explorer/services/uploadQueue.ts:147-150 | In a queue with distinct ids, splicing out the first item with the id removes every item with it; the queue's ids lose exactly that id and stay distinct |
| UploadQueueModel.MergeTwice | src/features/document-explorer/services/uploadQueue.ts:125 | Spreading the same update over an entry twice gives the entry spreading it once gives |
| UploadQueueModel.MergeOverridden | src/features/document-explorer/services/uploadQueue.ts:125 | An update that sets status, progress, error and result hides every earlier update of the entry |
| FileTypeDetection.DetectFileType | src/features/document-view/utils/fileTypeDetector.ts:10-43 | Unsupported iff no MIME type iff no extension; a PDF result is the PDF info; an image result is image info for some extension |
| FileTypeDetection.FirstContained | src/features/document-view/utils/fileTypeDetector.ts:34-39 | Finds the first image extension, in list order, whose dotted form occurs in the URL; nothing iff none occurs |
| FileTypeDetection.DetectNothing | src/features/document-view/utils/fileTypeDetector.ts:11-13 | With neither a path nor a type the result is unsupported |
| FileTypeDetection.DetectPdfType | src/features/document-view/utils/fileTypeDetector.ts:16-19 | A declared type containing "pdf" gives PDF whatever the path |
| FileTypeDetection.DetectImageType | src/features/document-view/utils/fileTypeDetector.ts:21-23 | A declared image type without "pdf" gives an image whose MIME type is "image/" plus the declared type |
| FileTypeDetection.DetectImageMimeDoubled | src/features/document-view/utils/fileTypeDetector.ts:21-23 | A declared "image/png" comes back with MIME type "image/image/png" |
| FileTypeDetection.DetectByPath | src/features/document-view/utils/fileTypeDetector.ts:27-40 | Otherwise the lower-cased URL decides: ".pdf" anywhere gives PDF, else the first listed image extension, else unsupported |
| FileTypeDetection.DetectUndecidedNoPath | src/features/document-view/utils/fileTypeDetector.ts:15-42 | A declared type that is neither a PDF nor an image type, with no usable path, gives unsupported |
| FileTypeDetection.IsImageType | src/features/document-view/utils/fileTypeDetector.ts:45-48 | A type is an image type iff its lower-cased form is one of the seven image extensions or it starts with "image/" (case-sensitively) |
| FileTypeDetection.ImageTypeAgreesWithMime | src/features/document-view/utils/fileTypeDetector.ts:45-88 | A type not starting with "image/" is an image type iff its extension's MIME type starts with "image/" |
| FileTypeDetection.ImageMimeKeys | src/features/document-view/utils/fileTypeDetector.ts:62-88 | The MIME table's "image/" entries are exactly the seven image extensions |
| FileTypeDetection.IsPDFType | src/features/document-view/utils/fileTypeDetector.ts:50-54 | The PDF check holds iff the declared type contains "pdf" or the lower-cased path contains ".pdf"; its relation to detection is the next row |
| FileTypeDetection.PdfTypeAgrees | src/features/document-view/utils/fileTypeDetector.ts:50-54 | Detection as PDF implies the PDF check; the PDF check implies detection as PDF unless a declared image type wins |
| FileTypeDetection.GetFileExtension | src/features/document-view/utils/fileTypeDetector.ts:56-60 | An extension exists iff the name is non-empty, has a dot and does not end in one; it is non-empty and dot-free |
| FileTypeDetection.GetFileExtensionOf | src/features/document-view/utils/fileTypeDetector.ts:56-60 | The extension of base + "." + ext is ext lower-cased |
| FileTypeDetection.GetMimeTypeFromExtension | src/features/document-view/utils/fileTypeDetector.ts:62-88 | A known extension, in any case, maps to its table entry; any other maps to "application/octet-stream" |
| FileTypeDetection.MimeIgnoresCase | src/features/document-view/utils/fileTypeDetector.ts:85-87 | The lookup gives the same answer for an extension and its lower-cased form |
| FileTypeDetection.MimeOfFileName | src/features/document-view/utils/fileTypeDetector.ts:56-88 | The extension read from a file name with a known extension finds that extension's MIME type |
| DragAndDrop.NormaliseTypes | src/features/document-explorer/hooks/useDragAndDrop.ts:55-58 | The normalised list holds exactly the non-empty trimmed, lower-cased accepted types |
| DragAndDrop.NormaliseTypesOrder | src/features/document-explorer/hooks/useDragAndDrop.ts:55-58 | The normalised list keeps the accepted types' order |
| DragAndDrop.NormalisedAreLower | src/features/document-explorer/hooks/useDragAndDrop.ts:55-58 | Every normalised type is already lower-case |
| DragAndDrop.ExtensionOf | src/features/document-explorer/hooks/useDragAndDrop.ts:62 | The extension contains no dot; a name without a dot is its own extension, lower-cased |
| DragAndDrop.IsFileAllowed | src/features/document-explorer/hooks/useDragAndDrop.ts:60-71 | A file is allowed iff the lower-cased text after its last dot (the whole name when it has none), that text after a dot, or its lower-cased MIME type is among the normalised types; the lemmas below state its consequences |
| DragAndDrop.AllowedIgnoresCase | src/features/document-explorer/hooks/useDragAndDrop.ts:60-71 | Whether a file is allowed does not depend on the case of its name or MIME type |
| DragAndDrop.AllowedByListedExtension | src/features/document-explorer/hooks/useDragAndDrop.ts:55-71 | A file whose extension is listed, with or without its dot and in any case, is allowed |
| DragAndDrop.RejectedUnlisted | src/features/document-explorer/hooks/useDragAndDrop.ts:60-71 | A file matching none of the three forms is rejected |
| DragAndDrop.PartitionSpec | src/features/document-explorer/hooks/useDragAndDrop.ts:77-80 | Allowed and rejected together are a permutation of the drop; each keeps drop order; every allowed file passes and every rejected file fails |
| DragAndDrop.Partition | src/features/document-explorer/hooks/useDragAndDrop.ts:77-80 | The loop produces exactly the allowed and the rejected files in drop order |
| DragAndDrop.RejectionMessage | src/features/document-explorer/hooks/useDragAndDrop.ts:82-89 | The message for a non-empty rejection is the count, "unsupported file", a plural "s" past one, ": ", the first three names joined by ", ", and "…" past three; the four lemmas below prove each part |
| DragAndDrop.MessageCount | src/features/document-explorer/hooks/useDragAndDrop.ts:87-89 | The text before the first space is the decimal count of rejected files |
| DragAndDrop.MessagePlural | src/features/document-explorer/hooks/useDragAndDrop.ts:87-89 | "file" is followed by "s" iff more than one file was rejected |
| DragAndDrop.MessageListsAll | src/features/document-explorer/hooks/useDragAndDrop.ts:82-89 | With at most three rejected files the message lists every name, joined by ", " |
| DragAndDrop.MessageTruncated | src/features/document-explorer/hooks/useDragAndDrop.ts:82-89 | With more than three it lists the first three names and ends with "…" |
| DragAndDrop.FolderName | src/features/document-explorer/hooks/useDragAndDrop.ts:96-106 | A folder name, when there is one, is non-empty |
| DragAndDrop.FolderNameCustom | src/features/document-explorer/hooks/useDragAndDrop.ts:97 | A non-blank custom name wins, trimmed |
| DragAndDrop.FolderNameFromPath | src/features/document-explorer/hooks/useDragAndDrop.ts:98-104 | Otherwise the first path segment of the first allowed file is used when non-empty |
| DragAndDrop.FolderNameNone | src/features/document-explorer/hooks/useDragAndDrop.ts:98-106 | Without a custom name or a "/" in the path there is no folder name |
| DragAndDrop.DeriveFolderName | src/features/document-explorer/hooks/useDragAndDrop.ts:96-106 | The step-by-step reassignment of the folder name computes the folder-name function |
| DragAndDrop.HandleFilesOutcome | src/features/document-explorer/hooks/useDragAndDrop.ts:73-109 | An error is reported iff some file is rejected; an upload happens iff some file is allowed and carries exactly the allowed files; an empty drop does neither |
| DragAndDrop.DropZone.constructor | src/features/document-explorer/hooks/useDragAndDrop.ts:45-58 | The zone stores the normalised types and starts with no error |
| DragAndDrop.DropZone.HandleFiles | src/features/document-explorer/hooks/useDragAndDrop.ts:73-109 | An empty drop changes nothing; otherwise the error, the reported errors and the upload calls change as the outcome functions say |
| DocumentNodes.Head | src/features/document-explorer/components/DocumentsExplorer/DocumentsExplorer.tsx:38 | A node's head keeps its id, name and kind and drops its children |
| DocumentsExplorer.FilterNodes | src/features/document-explorer/components/DocumentsExplorer/DocumentsExplorer.tsx:30-45 | An empty term returns the nodes unchanged; the result is never longer than the input |
| DocumentsExplorer.FilterNode | src/features/document-explorer/components/DocumentsExplorer/DocumentsExplorer.tsx:34-43 | A kept node has the same head; a kept file is unchanged; a file is kept iff its name contains the term, ignoring case |
| DocumentsExplorer.FilterFolder | src/features/document-explorer/components/DocumentsExplorer/DocumentsExplorer.tsx:35-40 | A folder is kept iff its name matches or some child survives, and then carries exactly the filtered children |
| DocumentsExplorer.FilterFiles | src/features/document-explorer/components/DocumentsExplorer/DocumentsExplorer.tsx:33-44 | A file is in the result iff it is in the input and its name matches |
| DocumentsExplorer.FilterOrigins | src/features/document-explorer/components/DocumentsExplorer/DocumentsExplorer.tsx:33-44 | Every result node is the filtered form of some input node |
| DocumentsExplorer.FilterKeeps | src/features/document-explorer/components/DocumentsExplorer/DocumentsExplorer.tsx:33-44 | Every input node that survives filtering appears in the result |
| DocumentsExplorer.FilterOrder | src/features/document-explorer/components/DocumentsExplorer/DocumentsExplorer.tsx:33-44 | The result keeps the input's order: its heads are a subsequence of the input's heads |
| DocumentsExplorer.FilterNodesIdempotent | src/features/document-explorer/components/DocumentsExplorer/DocumentsExplorer.tsx:30-45 | Filtering twice by the same term is filtering once |
| DocumentsExplorer.FilterNodeIdempotent | src/features/document-explorer/components/DocumentsExplorer/DocumentsExplorer.tsx:34-43 | A filtered node filters to itself |
| DocumentConverter.ConvertNode | src/features/document-explorer/utils/documentConverter.ts:7-28 | Id, name and creation time are kept; a folder gives a folder item whose count is its number of children; a file gives a file item with its file type |
| DocumentConverter.ConvertNodes | src/features/document-explorer/utils/documentConverter.ts:33-35 | One item per node, each the conversion of the node at the same position |
| DocumentConverter.ConvertNodesKeepsIds | src/features/document-explorer/utils/documentConverter.ts:33-35 | The item ids are the node ids, in order |
| DocumentConverter.ConvertNodesAppend | src/features/document-explorer/utils/documentConverter.ts:33-35 | Converting a concatenation is concatenating the conversions |
| DocumentConverter.GetFolderChildren | src/features/document-explorer/utils/documentConverter.ts:40-45 | The items are the converted children, or none without children; their number is the folder item's count |
| FolderNavigation.FindFirst | src/features/document-view/hooks/useFolderNavigation.ts:89-91 | Finds the first node with the id and the wanted kind; nothing iff none exists |
| FolderNavigation.Show | src/features/document-view/hooks/useFolderNavigation.ts:77-81 | Making a folder current shows its name and converted children and keeps the history |
| FolderNavigation.ToFolderOutcome | src/features/document-view/hooks/useFolderNavigation.ts:67-84 | The folder becomes current and shown; an empty history becomes the "all-files-root" folder when it exists; otherwise the history is kept |
| FolderNavigation.ToFolderByIdOutcome | src/features/document-view/hooks/useFolderNavigation.ts:86-105 | With a child folder of that id, the current folder is pushed and the child shown; without one, iff no such child exists, nothing changes |
| FolderNavigation.BackOutcome | src/features/document-view/hooks/useFolderNavigation.ts:107-127 | With a history, its last folder is shown and popped; without one, the root is shown when it exists and the history stays empty |
| FolderNavigation.NavigationKeepsShown | src/features/document-view/hooks/useFolderNavigation.ts:67-127 | Every navigation keeps the shown name and items those of the current folder |
| FolderNavigation.ToFolderByIdThenBack | src/features/document-view/hooks/useFolderNavigation.ts:86-127 | Entering a child folder and going back restores the whole state |
| FolderNavigation.FileClick | src/features/document-view/hooks/useFolderNavigation.ts:129-139 | A found file is a file child of the current folder with that id; nothing iff there is no current folder or no such child |
| FolderNavigation.FolderNavigator.constructor | src/features/document-view/hooks/useFolderNavigation.ts:27-31 | Starts with no current folder, the name "Root", no items and no history |
| FolderNavigation.FolderNavigator.NavigateToFolder | src/features/document-view/hooks/useFolderNavigation.ts:67-84 | The new state is the navigate-to-folder transition of the old one |
| FolderNavigation.FolderNavigator.NavigateToFolderById | src/features/document-view/hooks/useFolderNavigation.ts:86-105 | The new state is the navigate-by-id transition of the old one |
| FolderNavigation.FolderNavigator.NavigateBack | src/features/document-view/hooks/useFolderNavigation.ts:107-127 | The new state is the back transition of the old one |
| FolderNavigation.FolderNavigator.HandleFolderFileClick | src/features/document-view/hooks/useFolderNavigation.ts:129-139 | Returns the file-click lookup on the current state |
| Toasts.SpreadLaws | src/components/ui/ToastProvider.tsx:20-98 | Object spread is associative with the empty object as identity, so a helper's spread inside `showToast`'s spread is one spread of all three objects; spreading the same object twice is spreading it once |
| Toasts.NewToast | src/components/ui/ToastProvider.tsx:20-26 | The toast takes the caller's fields; its id is the fresh one unless the data carries an id; its duration defaults to 5000 |
| Toasts.HelperProps | src/components/ui/ToastProvider.tsx:72-98 | A helper's data always has a type and a title |
| Toasts.HelperToast | src/components/ui/ToastProvider.tsx:72-98 | A helper's toast has its type, title and message unless the options carry their own; id and duration come from the options or the defaults |
| Toasts.Without | src/components/ui/ToastProvider.tsx:31-33 | A toast remains iff it was present and has a different id |
| Toasts.WithoutOrder | src/components/ui/ToastProvider.tsx:31-33 | Removal keeps the order of the rest, and removing twice is removing once |
| Toasts.WithoutAbsent | src/components/ui/ToastProvider.tsx:31-33 | Removing an id no toast has changes nothing |
| Toasts.ShowThenRemove | src/components/ui/ToastProvider.tsx:20-33 | Showing a toast under a fresh id and removing that id restores the list |
| Toasts.ToastList.constructor | src/components/ui/ToastProvider.tsx:18 | The list starts empty |
| Toasts.ToastList.ShowToast | src/components/ui/ToastProvider.tsx:20-29 | The new toast is appended at the end |
| Toasts.ToastList.RemoveToast | src/components/ui/ToastProvider.tsx:31-33 | The list loses exactly the toasts with that id |
| Toasts.ToastList.ShowSuccess | src/components/ui/ToastProvider.tsx:72-77 | Appends a success toast built from the title, message and options |
| Toasts.ToastList.ShowError | src/components/ui/ToastProvider.tsx:79-84 | Appends an error toast built from the title, message and options |
| Toasts.ToastList.ShowWarning | src/components/ui/ToastProvider.tsx:86-91 | Appends a warning toast built from the title, message and options |
| Toasts.ToastList.ShowInfo | src/components/ui/ToastProvider.tsx:93-98 | Appends an info toast built from the title, message and options |
| PdfViewer.PrevPage | src/features/document-view/components/PDFViewer/PDFViewer.tsx:32-34 | The previous page is at least 1 and is one less whenever the page is at least 2 |
| PdfViewer.NextPage | src/features/document-view/components/PDFViewer/PDFViewer.tsx:36-38 | The next page never passes the page count, is one more whenever the page is below it, and is the page count at or past it |
| PdfViewer.ZoomIn | src/features/document-view/components/PDFViewer/PDFViewer.tsx:40-42 | Zooming in never exceeds 3.0, adds 0.25 below it, and gives 3.0 at or past it |
| PdfViewer.ZoomOut | src/features/document-view/components/PDFViewer/PDFViewer.tsx:44-46 | Zooming out never goes below 0.5, subtracts 0.25 above it, and gives 0.5 at or below it |
| PdfViewer.PagingStaysInRange | src/features/document-view/components/PDFViewer/PDFViewer.tsx:32-38 | From a page in range both moves stay in range and stop at the ends |
| PdfViewer.PagingRoundTrip | src/features/document-view/components/PDFViewer/PDFViewer.tsx:32-38 | Away from the ends, next then previous, and previous then next, return to the same page |
| PdfViewer.ZoomStaysInRange | src/features/document-view/components/PDFViewer/PDFViewer.tsx:40-46 | From a scale in range both steps stay in range, stop at the bounds, and undo each other away from them |
| PdfViewer.PdfViewerState.constructor | src/features/document-view/components/PDFViewer/PDFViewer.tsx:11-15 | No pages, page 0, scale 1.0, no error |
| PdfViewer.PdfViewerState.OnDocumentLoadSuccess | src/features/document-view/components/PDFViewer/PDFViewer.tsx:19-24 | Loading records the page count, goes to page 1 and clears the error; the page stays in range |
| PdfViewer.PdfViewerState.OnDocumentLoadError | src/features/document-view/components/PDFViewer/PDFViewer.tsx:26-30 | A load failure sets the error "Failed to load PDF document" and changes nothing else |
| PdfViewer.PdfViewerState.GoToPrevPage | src/features/document-view/components/PDFViewer/PDFViewer.tsx:32-34 | The page becomes the previous page; nothing else changes and the viewer invariant holds |
| PdfViewer.PdfViewerState.GoToNextPage | src/features/document-view/components/PDFViewer/PDFViewer.tsx:36-38 | The page becomes the next page; nothing else changes and the viewer invariant holds |
| PdfViewer.PdfViewerState.ZoomInStep | src/features/document-view/components/PDFViewer/PDFViewer.tsx:40-42 | The scale zooms in one step; nothing else changes and the viewer invariant holds |
| PdfViewer.PdfViewerState.ZoomOutStep | src/features/document-view/components/PDFViewer/PDFViewer.tsx:44-46 | The scale zooms out one step; nothing else changes and the viewer invariant holds |

## Left out

- Network, abort signals and timers: the upload request is modelled as a record of the
  requests sent. Its progress, success and failure are environment events on the
  queue. `AbortController.abort()` only drops the id from the active set, so a
  cancelled request may still settle later.
- Upload ids are a counter. The source uses `Date.now()` and `Math.random()`, which
  are unique only with high probability.
- Toast ids are a parameter supplied by the caller, because the source draws them
  from `Math.random()`.
- The progress percentage is a parameter. Its rounding (`Math.round(loaded * 100 /
  total)`) is floating point.
- PDF zoom is counted in whole quarters. The source's floating-point scale takes
  exactly these values.
- PDF rendering, the container width, the download link and the unused loading flag
  are view concerns and are not modelled.
- Lower-casing and trimming are ASCII only. JavaScript's `toLowerCase` and `trim` also
  handle Unicode letters and Unicode white space.
- The MIME table lookup does not model inherited object-prototype keys such as
  `"constructor"`, for which the source would return a function.
- Drag and drop:
  - `handleDrop`'s asynchronous directory traversal is not modelled;
  - the drag-active flag and the drag-over/leave handlers are not modelled;
  - the file-input handler is not modelled;
  - `clearError` and the five-second error timer are not modelled.

  `HandleFiles` models what these pass on. `UploadDropZone.tsx` repeats the same
  filter, which is modelled once.
- `DragAndDrop.DropZone.HandleFiles`: calls to `onError` are recorded as
  `reportedErrors` whether or not a handler was passed.
- React effects are not modelled: the two initialisation effects of the folder
  navigation hook and the loading flag. A navigation from the initial state covers
  what those effects set.
- The type of the folder view's items is not part of this model:
  `src/features/document-view/interfaces/common.ts` declares only `DocumentMeta`. The
  fields of the folder and file entries are read off the object literals the converter
  builds (`src/features/document-explorer/utils/documentConverter.ts:10-25`). The converter
  writes `fileType` from a node's `file_type`, while the node interface calls that field
  `fileType`. The model has one optional file-type field.
- Toasts:
  - a property explicitly set to `undefined` in the data is treated as absent;
  - the source's spread would keep the key with the value `undefined`;
  - the action's `onClick` callback is not modelled, only its label.
- `useToast`'s error outside a provider is not modelled.
- UploadQueue methods do not ensure `Valid()`. Preservation of the invariant is
  proved by lemmas on the transition functions (`ProcessInv`, `AddInv`, `SettleInv`,
  `CancelInv`, `ClearSpec`, `CancelAllSpec`).
- The field writes that `EnqueueFiles` and `ClearCompleted` make one by one are
  written back together at the end of the method.
- Progress and settle events take their preconditions (the id is active, or in
  flight) in the lemmas, not in the methods, because the events come from the
  network.
