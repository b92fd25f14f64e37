/** The document list page of the browser client
    (frontend/src/pages/Dashboard.jsx): the `documents`, `loading`, `error`,
    `file`, `uploading` and `uploadError` state and the handlers that fetch
    the list, pick a file, upload it and delete a document. Each handler
    runs as one step; the replies it awaits and the confirmation dialog's
    answer are inputs, and the requests it sends are outputs. */
module DashboardPage {
  import opened Wrappers
  import opened Js
  import opened Api

  const FetchFallback := "Failed to fetch documents."
  const NoFileMessage := "Please select a file to upload."
  const UploadFailed := "Failed to upload document."
  const DeleteFailed := "Failed to delete document."

  class Dashboard {
    const store: LocalStorage
    const baseUrl: string
    var documents: Value
    var loading: bool
    var error: Option<string>
    var file: Option<FileHandle>
    var uploading: bool
    var uploadError: Option<string>

    /** An error slot that is set holds a non-empty message, so the page,
        which tests the slot for truthiness, always shows it. */
    predicate Valid()
      reads this
    {
      (error.Some? ==> error.value != "") && (uploadError.Some? ==> uploadError.value != "")
    }

    /** `disabled={uploading || !file}` negated. */
    function UploadEnabled(): (r: bool)
      reads this
      ensures r ==> file.Some?
      ensures r <==> !uploading && file.Some?
    {
      !uploading && file.Some?
    }

    constructor (store: LocalStorage, baseUrl: string)
      ensures this.store == store && this.baseUrl == baseUrl
      ensures documents == Arr([]) && loading && error.None?
      ensures file.None? && !uploading && uploadError.None?
      ensures Valid()
    {
      this.store := store;
      this.baseUrl := baseUrl;
      documents := Arr([]);
      loading := true;
      error := None;
      file := None;
      uploading := false;
      uploadError := None;
    }

    /** `fetchDocuments`: a successful fetch replaces the whole list and
        leaves `error` cleared; a failed one keeps the list and sets
        `error`. */
    method FetchDocuments(reply: Reply) returns (sent: Option<HttpRequest>)
      requires Valid()
      modifies this`documents, this`loading, this`error
      ensures sent.Some? <==> HasToken(store.items)
      ensures sent.Some? ==> sent.value.url == baseUrl + "/documents/" && sent.value.verb == GET
      ensures var outcome := CallOutcome(store.items, GetDocuments, reply);
        && (outcome.Returned? ==> documents == outcome.value && error.None?)
        && (outcome.Threw? ==> documents == old(documents) && error == Some(MessageOr(outcome.message, FetchFallback)))
      ensures !loading
      ensures Valid()
    {
      loading := true;
      error := None;
      var outcome;
      sent, outcome := Invoke(store, baseUrl, GetDocuments, reply);
      if outcome.Returned? {
        documents := outcome.value;
      } else {
        error := Some(MessageOr(outcome.message, FetchFallback));
      }
      loading := false;
    }

    /** `handleFileChange`: the first chosen file replaces the selection; no
        file keeps the previous one. */
    method HandleFileChange(files: seq<FileHandle>)
      modifies this`file
      ensures |files| > 0 ==> file == Some(files[0])
      ensures |files| == 0 ==> file == old(file)
    {
      if |files| > 0 {
        file := Some(files[0]);
      }
    }

    /** `handleUpload`. Without a file it only sets `uploadError`. Otherwise
        it uploads; success clears the selection and refetches the list,
        failure keeps the selection and the list and sets `uploadError`. */
    method HandleUpload(uploadReply: Reply, listReply: Reply) returns (sent: seq<HttpRequest>)
      requires Valid()
      modifies this`documents, this`loading, this`error, this`file, this`uploading, this`uploadError
      ensures old(file).None? ==>
        && sent == [] && uploadError == Some(NoFileMessage)
        && documents == old(documents) && loading == old(loading) && error == old(error)
        && file == old(file) && uploading == old(uploading)
      ensures old(file).Some? && UploadOutcome(store.items, uploadReply).Threw? ==>
        && uploadError == Some(MessageOr(UploadOutcome(store.items, uploadReply).message, UploadFailed))
        && file == old(file) && documents == old(documents)
        && loading == old(loading) && error == old(error)
        && |sent| <= 1
      ensures old(file).Some? && UploadOutcome(store.items, uploadReply).Returned? ==>
        var listing := CallOutcome(store.items, GetDocuments, listReply);
        && uploadError.None? && file.None? && !loading
        && |sent| == 2 && sent[0].body == Multipart([("file", old(file).value)])
        && sent[1].url == baseUrl + "/documents/"
        && (listing.Returned? ==> documents == listing.value && error.None?)
        && (listing.Threw? ==> documents == old(documents) && error == Some(MessageOr(listing.message, FetchFallback)))
      ensures old(file).Some? ==> !uploading
      ensures Valid()
    {
      if file.None? {
        uploadError := Some(NoFileMessage);
        return [];
      }
      uploading := true;
      uploadError := None;
      var upload, outcome := UploadDocument(store, baseUrl, file.value, uploadReply);
      sent := if upload.Some? then [upload.value] else [];
      if outcome.Returned? {
        file := None;
        var listing := FetchDocuments(listReply);
        sent := sent + [listing.value];
      } else {
        uploadError := Some(MessageOr(outcome.message, UploadFailed));
      }
      uploading := false;
    }

    /** `handleDelete`. Unconfirmed, nothing happens. A successful delete
        refetches the list; a failed one writes the list's `error` slot and
        keeps the list. */
    method HandleDelete(documentId: Value, confirmed: bool, deleteReply: Reply, listReply: Reply)
      returns (sent: seq<HttpRequest>)
      requires Valid()
      modifies this`documents, this`loading, this`error
      ensures !confirmed ==>
        && sent == [] && documents == old(documents) && loading == old(loading) && error == old(error)
      ensures confirmed && CallOutcome(store.items, DeleteDocument(documentId), deleteReply).Threw? ==>
        && error == Some(MessageOr(CallOutcome(store.items, DeleteDocument(documentId), deleteReply).message, DeleteFailed))
        && documents == old(documents) && loading == old(loading)
        && |sent| <= 1
      ensures confirmed && CallOutcome(store.items, DeleteDocument(documentId), deleteReply).Returned? ==>
        var listing := CallOutcome(store.items, GetDocuments, listReply);
        && |sent| == 2
        && sent[0].url == baseUrl + ("/documents/" + ToJsString(documentId)) && sent[0].verb == DELETE
        && sent[1].url == baseUrl + "/documents/" && !loading
        && (listing.Returned? ==> documents == listing.value && error.None?)
        && (listing.Threw? ==> documents == old(documents) && error == Some(MessageOr(listing.message, FetchFallback)))
      ensures Valid()
    {
      sent := [];
      if confirmed {
        var deletion, outcome := Invoke(store, baseUrl, DeleteDocument(documentId), deleteReply);
        assert Route(DeleteDocument(documentId)).0 == "/documents/" + ToJsString(documentId);
        sent := if deletion.Some? then [deletion.value] else [];
        if outcome.Returned? {
          var listing := FetchDocuments(listReply);
          sent := sent + [listing.value];
        } else {
          error := Some(MessageOr(outcome.message, DeleteFailed));
        }
      }
    }
  }
}
