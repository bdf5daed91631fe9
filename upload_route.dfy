/**
 * POST /api/upload: the guards that decide whether a receipt file is sent to
 * the image host, and the answer built from the host's result.
 */
module UploadRoute {
  import opened Wrappers
  import opened JsString
  import ExpenseForm

  /** The three environment variables the image host needs. */
  datatype Config = Config(cloudName: Option<string>, apiKey: Option<string>, apiSecret: Option<string>)

  /** The `file` form field: its MIME type and its size in bytes. */
  datatype File = File(mime: string, size: nat)

  /** What the upload callback received: an error, no result, or a result whose two fields may be missing. */
  datatype HostResult = HostError | NoResult | HostUpload(secureUrl: Option<string>, publicId: Option<string>)

  /** Why a request was refused; `Message` gives the `error` text of the JSON answer. */
  datatype Reason = Unauthorized | ConfigMissing | NoFile | BadType | TooLarge | UploadFailed

  datatype Response = Uploaded(url: string, publicId: string) | Refused(status: int, reason: Reason)

  function Message(r: Reason): string {
    match r
    case Unauthorized => "Unauthorized"
    case ConfigMissing => "Cloudinary configuration is missing"
    case NoFile => "No file provided"
    case BadType => "Invalid file type. Only images and PDFs are allowed."
    case TooLarge => "File size must be less than 5MB"
    case UploadFailed => "Failed to upload file"
  }

  const ValidTypes: seq<string> := ["image/jpeg", "image/png", "image/gif", "application/pdf"]

  /** 5 * 1024 * 1024 bytes. */
  const MaxSize: nat := 5 * 1024 * 1024

  predicate Configured(c: Config) {
    Truthy(c.cloudName) && Truthy(c.apiKey) && Truthy(c.apiSecret)
  }

  /** The guards in the handler's order; None when the file may be uploaded. */
  function Guard(userId: Option<string>, c: Config, file: Option<File>): (r: Option<Response>)
    ensures r.Some? ==> r.value.Refused?
  {
    if !Truthy(userId) then Some(Refused(401, Unauthorized))
    else if !Configured(c) then Some(Refused(500, ConfigMissing))
    else if file.None? then Some(Refused(400, NoFile))
    else if file.value.mime !in ValidTypes then Some(Refused(400, BadType))
    else if file.value.size > MaxSize then Some(Refused(400, TooLarge))
    else None
  }

  /** The promise around the callback: resolved only with both fields present and non-empty. */
  function Settle(h: HostResult): (r: Option<(string, string)>)
    ensures r.Some? <==> h.HostUpload? && Truthy(h.secureUrl) && Truthy(h.publicId)
    ensures r.Some? ==> r.value == (h.secureUrl.value, h.publicId.value)
  {
    if h.HostUpload? && Truthy(h.secureUrl) && Truthy(h.publicId) then Some((h.secureUrl.value, h.publicId.value))
    else None
  }

  /** The handler; the host's answer is an input, as the upload itself is not modelled. */
  function Post(userId: Option<string>, c: Config, file: Option<File>, h: HostResult): Response {
    var refusal := Guard(userId, c, file);
    if refusal.Some? then refusal.value
    else
      var settled := Settle(h);
      if settled.None? then Refused(500, UploadFailed)
      else Uploaded(settled.value.0, settled.value.1)
  }

  /** Each guard answers only when every earlier guard passed; the first failure decides. */
  lemma GuardOrder(userId: Option<string>, c: Config, file: Option<File>, h: HostResult)
    ensures Post(userId, c, file, h).Refused? && Post(userId, c, file, h).status == 401 <==> !Truthy(userId)
    ensures Post(userId, c, file, h) == Refused(500, ConfigMissing) <==>
      Truthy(userId) && !Configured(c)
    ensures Post(userId, c, file, h) == Refused(400, NoFile) <==>
      Truthy(userId) && Configured(c) && file.None?
    ensures Post(userId, c, file, h) == Refused(400, BadType) <==>
      Truthy(userId) && Configured(c) && file.Some? && file.value.mime !in ValidTypes
    ensures Post(userId, c, file, h) == Refused(400, TooLarge) <==>
      Truthy(userId) && Configured(c) && file.Some? && file.value.mime in ValidTypes && file.value.size > MaxSize
  {
  }

  /** An upload answer carries the host's url and public id, and only when every guard passed; a bad host result is a 500. */
  lemma UploadedSpec(userId: Option<string>, c: Config, file: Option<File>, h: HostResult)
    ensures Post(userId, c, file, h).Uploaded? <==>
      && Truthy(userId) && Configured(c) && file.Some?
      && file.value.mime in ValidTypes && file.value.size <= MaxSize
      && h.HostUpload? && Truthy(h.secureUrl) && Truthy(h.publicId)
    ensures Post(userId, c, file, h) == Refused(500, UploadFailed) <==>
      && Guard(userId, c, file).None?
      && !(h.HostUpload? && Truthy(h.secureUrl) && Truthy(h.publicId))
    ensures Post(userId, c, file, h).Uploaded? ==>
      Post(userId, c, file, h) == Uploaded(h.secureUrl.value, h.publicId.value)
    ensures Post(userId, c, file, h).Uploaded? ==>
      Post(userId, c, file, h).url != "" && Post(userId, c, file, h).publicId != ""
  {
  }

  /** Exactly 5 MiB passes the size guard; one byte more does not. */
  lemma SizeBoundary(userId: Option<string>, c: Config, mime: string)
    requires Truthy(userId) && Configured(c) && mime in ValidTypes
    ensures Guard(userId, c, Some(File(mime, 5242880))).None?
    ensures Guard(userId, c, Some(File(mime, 5242881))) == Some(Refused(400, TooLarge))
  {
  }

  /** How the expense form reads the answer: the url and public id of a success, a failure otherwise. */
  function FormUpload(r: Response): (u: ExpenseForm.Upload)
    ensures r.Uploaded? <==> u.UploadOk?
    ensures r.Uploaded? ==> u == ExpenseForm.UploadOk(Some(r.url), Some(r.publicId))
  {
    if r.Uploaded? then ExpenseForm.UploadOk(Some(r.url), Some(r.publicId)) else ExpenseForm.UploadFailed
  }

  /** After an upload the form receives both a url and a public id, the host's own. */
  lemma UploadedReceiptIsComplete(userId: Option<string>, c: Config, file: Option<File>, h: HostResult)
    requires Post(userId, c, file, h).Uploaded?
    ensures var u := FormUpload(Post(userId, c, file, h));
      && u.UploadOk? && Truthy(u.url) && Truthy(u.publicId)
      && u.url == h.secureUrl && u.publicId == h.publicId
  {
    UploadedSpec(userId, c, file, h);
  }
}
