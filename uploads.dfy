/** The two upload-list stores (src/stores/receiptStore.ts and
    src/stores/invoiceStore.ts): a list of chosen files with a send form. The
    mail-sending service is outside the model; its answer is a parameter. */
module Uploads {
  import opened Wrappers

  /** A chosen file; only its name takes part in the store's logic. */
  datatype File = File(name: string, size: nat, mimeType: string)

  /** The set of names in a file list (`new Set(files.map(f => f.name))`). */
  function Names(files: seq<File>): (r: set<string>)
    ensures forall f :: f in files ==> f.name in r
    ensures forall n :: n in r ==> exists f :: f in files && f.name == n
  {
    if |files| == 0 then {} else {files[0].name} + Names(files[1..])
  }

  /** `newFiles.filter(file => !existingNames.has(file.name))`. */
  function NewOnly(incoming: seq<File>, existing: set<string>): seq<File> {
    if |incoming| == 0 then []
    else (if incoming[0].name in existing then [] else [incoming[0]]) + NewOnly(incoming[1..], existing)
  }

  /** The list after `addFiles(incoming)`. */
  function WithAdded(files: seq<File>, incoming: seq<File>): seq<File> {
    files + NewOnly(incoming, Names(files))
  }

  /** `files.filter((_, i) => i !== index)`. */
  function WithoutIndex(files: seq<File>, index: int): seq<File> {
    if |files| == 0 then [] else (if index == 0 then [] else [files[0]]) + WithoutIndex(files[1..], index - 1)
  }

  /** The kept files are exactly the incoming ones with a name not already present. */
  lemma {:induction false} NewOnlyMembers(incoming: seq<File>, existing: set<string>)
    ensures forall f :: f in NewOnly(incoming, existing) <==> f in incoming && f.name !in existing
  {
    if |incoming| > 0 {
      NewOnlyMembers(incoming[1..], existing);
      assert incoming == [incoming[0]] + incoming[1..];
    }
  }

  /** Filtering a batch distributes over concatenation: relative order is kept. */
  lemma {:induction false} NewOnlyConcat(a: seq<File>, b: seq<File>, existing: set<string>)
    ensures NewOnly(a + b, existing) == NewOnly(a, existing) + NewOnly(b, existing)
  {
    if |a| > 0 {
      assert (a + b)[1..] == a[1..] + b;
      NewOnlyConcat(a[1..], b, existing);
    } else {
      assert a + b == b;
    }
  }

  /** `addFiles`: the old list unchanged in front, then the incoming files (in their
      order) whose names are not among the OLD names. */
  lemma AddFilesSpec(files: seq<File>, incoming: seq<File>)
    ensures var r := WithAdded(files, incoming);
      && r[..|files|] == files
      && r[|files|..] == NewOnly(incoming, Names(files))
      && (forall f :: f in r[|files|..] <==> f in incoming && f.name !in Names(files))
  {
    NewOnlyMembers(incoming, Names(files));
    var r := WithAdded(files, incoming);
    assert r[|files|..] == NewOnly(incoming, Names(files));
  }

  /** Duplicates inside one batch are not removed: the name set comes only from the
      existing list. */
  lemma BatchNotDeduplicated(f: File)
    ensures WithAdded([], [f, f]) == [f, f]
  {
    assert Names([]) == {};
    assert [f, f][1..] == [f];
    assert NewOnly([f], {}) == [f];
    assert NewOnly([f, f], {}) == [f] + NewOnly([f], {});
  }

  /** Adding the same batch a second time adds nothing more. */
  lemma AddFilesTwice(files: seq<File>, incoming: seq<File>)
    ensures WithAdded(WithAdded(files, incoming), incoming) == WithAdded(files, incoming)
  {
    var once := WithAdded(files, incoming);
    NewOnlyMembers(incoming, Names(files));
    assert forall f :: f in incoming ==> f.name in Names(once) by {
      forall f | f in incoming ensures f.name in Names(once) {
        if f.name in Names(files) {
          var g :| g in files && g.name == f.name;
          assert g in once;
        } else {
          assert f in NewOnly(incoming, Names(files));
          assert f in once;
        }
      }
    }
    NewOnlyNone(incoming, Names(once));
  }

  lemma {:induction false} NewOnlyNone(incoming: seq<File>, existing: set<string>)
    requires forall f :: f in incoming ==> f.name in existing
    ensures NewOnly(incoming, existing) == []
  {
    if |incoming| > 0 {
      assert incoming[0] in incoming;
      assert forall f :: f in incoming[1..] ==> f in incoming;
      NewOnlyNone(incoming[1..], existing);
    }
  }

  /** `removeFile(i)` removes exactly position `i`, ... */
  lemma {:induction false} WithoutIndexInRange(files: seq<File>, index: int)
    requires 0 <= index < |files|
    ensures WithoutIndex(files, index) == files[..index] + files[index + 1..]
  {
    var rest := files[1..];
    if index == 0 {
      WithoutIndexOutOfRange(rest, -1);
      assert WithoutIndex(files, index) == [] + WithoutIndex(rest, -1);
      assert files[..index] + files[index + 1..] == rest;
    } else {
      WithoutIndexInRange(rest, index - 1);
      assert WithoutIndex(files, index) == [files[0]] + WithoutIndex(rest, index - 1);
      assert files[..index] == [files[0]] + rest[..index - 1];
      assert files[index + 1..] == rest[index..];
    }
  }

  /** ... and an index outside the list (negative or too large) leaves it unchanged. */
  lemma {:induction false} WithoutIndexOutOfRange(files: seq<File>, index: int)
    requires !(0 <= index < |files|)
    ensures WithoutIndex(files, index) == files
  {
    if |files| > 0 {
      WithoutIndexOutOfRange(files[1..], index - 1);
      assert files == [files[0]] + files[1..];
    }
  }

  /** Removing a position shortens the list by one exactly when it is in range. */
  lemma WithoutIndexLength(files: seq<File>, index: int)
    ensures |WithoutIndex(files, index)| == if 0 <= index < |files| then |files| - 1 else |files|
  {
    if 0 <= index < |files| { WithoutIndexInRange(files, index); } else { WithoutIndexOutOfRange(files, index); }
  }

  /** What the receipt form sends. */
  datatype ReceiptForm = ReceiptForm(files: seq<File>, receiverName: string, receivedAmount: string,
                                     receiverEmail: string, currency: string, receivedVia: string)

  const DefaultReceiptForm := ReceiptForm([], "", "", "", "PHP", "")

  /** The send gate of `sendReceipts`: a file and the four text fields; the
      currency is not checked. */
  predicate ReceiptReady(f: ReceiptForm) {
    |f.files| > 0 && f.receiverName != "" && f.receivedAmount != "" && f.receiverEmail != "" && f.receivedVia != ""
  }

  const ReceiptIncomplete := "Please fill all fields and select at least one receipt file."
  const UnexpectedError := "An unexpected error occurred."

  /** The answer of a sending service: a reply, or an exception. */
  datatype SendOutcome = Replied(success: bool, replyMessage: string) | Threw

  class ReceiptStore {
    var files: seq<File>
    var receiverName: string
    var receivedAmount: string
    var receiverEmail: string
    var currency: string
    var receivedVia: string
    var isLoading: bool
    var message: string

    function Form(): ReceiptForm
      reads this
    {
      ReceiptForm(files, receiverName, receivedAmount, receiverEmail, currency, receivedVia)
    }

    constructor ()
      ensures Form() == DefaultReceiptForm && !isLoading && message == ""
    {
      files, receiverName, receivedAmount, receiverEmail := [], "", "", "";
      currency, receivedVia, isLoading, message := "PHP", "", false, "";
    }

    method AddFiles(incoming: seq<File>)
      modifies this
      ensures Form() == old(Form()).(files := WithAdded(old(files), incoming))
      ensures isLoading == old(isLoading) && message == old(message)
    {
      files := files + NewOnly(incoming, Names(files));
    }

    method RemoveFile(index: int)
      modifies this
      ensures Form() == old(Form()).(files := WithoutIndex(old(files), index))
      ensures isLoading == old(isLoading) && message == old(message)
    {
      files := WithoutIndex(files, index);
    }

    method SetReceiverName(v: string)
      modifies this
      ensures Form() == old(Form()).(receiverName := v)
      ensures isLoading == old(isLoading) && message == old(message)
    {
      receiverName := v;
    }

    method SetReceivedAmount(v: string)
      modifies this
      ensures Form() == old(Form()).(receivedAmount := v)
      ensures isLoading == old(isLoading) && message == old(message)
    {
      receivedAmount := v;
    }

    method SetReceiverEmail(v: string)
      modifies this
      ensures Form() == old(Form()).(receiverEmail := v)
      ensures isLoading == old(isLoading) && message == old(message)
    {
      receiverEmail := v;
    }

    method SetCurrency(v: string)
      modifies this
      ensures Form() == old(Form()).(currency := v)
      ensures isLoading == old(isLoading) && message == old(message)
    {
      currency := v;
    }

    method SetReceivedVia(v: string)
      modifies this
      ensures Form() == old(Form()).(receivedVia := v)
      ensures isLoading == old(isLoading) && message == old(message)
    {
      receivedVia := v;
    }

    method ClearMessage()
      modifies this
      ensures Form() == old(Form()) && isLoading == old(isLoading) && message == ""
    {
      message := "";
    }

    /** `resetForm`: back to the defaults; `isLoading` and `message` untouched. */
    method ResetForm()
      modifies this
      ensures Form() == DefaultReceiptForm
      ensures isLoading == old(isLoading) && message == old(message)
    {
      files, receiverName, receivedAmount, receiverEmail := [], "", "", "";
      currency, receivedVia := "PHP", "";
    }

    /** `sendReceipts`. Returns the form handed to the service, or None when the
        gate stopped the send. */
    method SendReceipts(outcome: SendOutcome) returns (sent: Option<ReceiptForm>)
      modifies this
      ensures !isLoading
      ensures !ReceiptReady(old(Form())) ==>
        sent == None && Form() == old(Form()) && message == ReceiptIncomplete
      ensures ReceiptReady(old(Form())) ==> sent == Some(old(Form()))
      ensures ReceiptReady(old(Form())) && outcome.Replied? && outcome.success ==>
        Form() == DefaultReceiptForm && message == outcome.replyMessage
      ensures ReceiptReady(old(Form())) && outcome.Replied? && !outcome.success ==>
        Form() == old(Form()) && message == outcome.replyMessage
      ensures ReceiptReady(old(Form())) && outcome.Threw? ==>
        Form() == old(Form()) && message == UnexpectedError
    {
      var form := Form();
      if !ReceiptReady(form) {
        message, isLoading := ReceiptIncomplete, false;
        return None;
      }
      isLoading, message := true, "";
      sent := Some(form);
      match outcome
      case Replied(ok, text) =>
        if ok {
          message := text;
          files, receiverName, receivedAmount, receiverEmail := [], "", "", "";
          currency, receivedVia, isLoading := "PHP", "", false;
        } else {
          message, isLoading := text, false;
        }
      case Threw =>
        message, isLoading := UnexpectedError, false;
    }
  }

  const InvoiceIncomplete := "Please select at least one file and enter an email address."

  class InvoiceStore {
    var files: seq<File>
    var email: string
    var isLoading: bool
    var message: string

    constructor ()
      ensures files == [] && email == "" && !isLoading && message == ""
    {
      files, email, isLoading, message := [], "", false, "";
    }

    method AddFiles(incoming: seq<File>)
      modifies this
      ensures files == WithAdded(old(files), incoming)
      ensures email == old(email) && isLoading == old(isLoading) && message == old(message)
    {
      files := files + NewOnly(incoming, Names(files));
    }

    method RemoveFile(index: int)
      modifies this
      ensures files == WithoutIndex(old(files), index)
      ensures email == old(email) && isLoading == old(isLoading) && message == old(message)
    {
      files := WithoutIndex(files, index);
    }

    method SetEmail(v: string)
      modifies this
      ensures email == v
      ensures files == old(files) && isLoading == old(isLoading) && message == old(message)
    {
      email := v;
    }

    method ClearMessage()
      modifies this
      ensures message == ""
      ensures files == old(files) && email == old(email) && isLoading == old(isLoading)
    {
      message := "";
    }

    /** `resetForm` clears only the files and the address. */
    method ResetForm()
      modifies this
      ensures files == [] && email == ""
      ensures isLoading == old(isLoading) && message == old(message)
    {
      files, email := [], "";
    }

    /** `sendInvoices`. Returns the files and address handed to the service, or
        None when the gate stopped the send. */
    method SendInvoices(outcome: SendOutcome) returns (sent: Option<(seq<File>, string)>)
      modifies this
      ensures !isLoading
      ensures (|old(files)| == 0 || old(email) == "") ==>
        sent == None && files == old(files) && email == old(email) && message == InvoiceIncomplete
      ensures (|old(files)| > 0 && old(email) != "") ==> sent == Some((old(files), old(email)))
      ensures (|old(files)| > 0 && old(email) != "") && outcome.Replied? && outcome.success ==>
        files == [] && email == "" && message == outcome.replyMessage
      ensures (|old(files)| > 0 && old(email) != "") && outcome.Replied? && !outcome.success ==>
        files == old(files) && email == old(email) && message == outcome.replyMessage
      ensures (|old(files)| > 0 && old(email) != "") && outcome.Threw? ==>
        files == old(files) && email == old(email) && message == UnexpectedError
    {
      if |files| == 0 || email == "" {
        message, isLoading := InvoiceIncomplete, false;
        return None;
      }
      isLoading, message := true, "";
      sent := Some((files, email));
      match outcome
      case Replied(ok, text) =>
        if ok {
          message, files, email, isLoading := text, [], "", false;
        } else {
          message, isLoading := text, false;
        }
      case Threw =>
        message, isLoading := UnexpectedError, false;
    }
  }
}
