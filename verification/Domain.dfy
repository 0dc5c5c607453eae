/** The values that travel between the parts of the bridge (src/mailtg_bridge/domain.py). */
module Domain {
  import Render

  datatype Option<+T> = None | Some(value: T)

  function One(b: bool): nat { if b then 1 else 0 }

  datatype MediaRef = MediaRef(mediaId: string, contentType: string)

  /** `available` is false when the download failed; then no file exists at `path`. */
  datatype Downloaded = Downloaded(ref: MediaRef, path: string, size: nat, available: bool)

  /** `author` and `date` as they are shown; `link` is empty where there is none to the message. */
  datatype Message = Message(id: int, author: string, date: string, text: string,
                             entities: seq<Render.Entity>, link: string, media: seq<MediaRef>)

  /** What a backoff row holds back.  The source names scopes by strings; see Routing.ScopeKey. */
  datatype Scope = TgList | TgDialog(dialog: string) | TgPost(dialog: string)
                 | MailPoll | MailNotice(kind: string) | MailSessionNotice
}
