/**
 * The Telegram front end (src/communication/telegram.rs): for one incoming message `handle_message`
 * decides whether the sender is served, which command or query the message is, which session rows are
 * written and what the chat receives. The bot API, the file system and query fulfilment are inputs
 * gathered in a `Turn`; what the handler does outside the tables is returned as effects, in order.
 */
module Telegram {

  import opened Wrappers
  import opened Text
  import opened SessionTypes
  import opened CostTypes
  import opened DatabaseQueries
  import opened Database
  import DatabaseErrors
  import opened QueryTypes
  import opened ErrorHandler
  import opened SessionHelpers
  import QueryFulfilment

  datatype TelegramError = EnvError | QueryFulfilmentInitError(detail: string) | ImageProcessingError(detail: string)

  /** The `Display` text of a front-end error. */
  function TelegramErrorText(e: TelegramError): string
  {
    match e
    case EnvError => "Environment variable error"
    case QueryFulfilmentInitError(d) => "Error initializing query fulfilment service: " + d
    case ImageProcessingError(d) => "Image processing error: " + d
  }

  /**
   * Everything one turn of the handler depends on besides the message and the tables: fresh
   * identifiers, the clock, the help file, the database server's replies, the bot's downloads by
   * file id, and what query fulfilment answers for this message.
   */
  datatype Turn = Turn(
    freshSessionId: Uuid, assignedId: Uuid, now: int, elapsedMs: nat, helpFile: Option<string>,
    lookup: Reply, createUser: Reply, command: Reply, createSession: Reply,
    totalReply: Reply, updateReply: Reply, eventsReply: Reply,
    downloads: string -> Download, answer: Result<Response, QueryError>)

  /** Fetching a file from Telegram: `get_file` failed, the download failed, or the bytes arrived. */
  datatype Download = InfoFailed(message: string) | DownloadFailed(message: string) | Downloaded

  /** The parts of a message the handler looks at, in the order it looks at them. */
  datatype Incoming = Incoming(photos: Option<seq<PhotoSize>>, caption: Option<string>, text: Option<string>,
                               voice: Option<string>, document: bool)

  // ------------------------------------------------------------ the user gate

  const StatusSuspended := "suspended"
  const PendingApproval := "Your account is pending approval. Please wait for admin confirmation."
  const Suspended := "Your account has been suspended. Please contact admin."
  const AccessDenied := "Access denied. Please contact admin."
  const AwaitingAdmin := "Your account is pending approval. Admin has been notified."
  const SystemErrorLater := "System error. Please try again later."
  const SystemError := "System error"

  /** What a known but unauthorized user is told, by account status. */
  function StatusMessage(status: string): (m: string)
    ensures m == PendingApproval <==> status == StatusPending
    ensures m == Suspended <==> status == StatusSuspended
    ensures m == AccessDenied <==> status != StatusPending && status != StatusSuspended
  {
    if status == StatusPending then PendingApproval
    else if status == StatusSuspended then Suspended
    else AccessDenied
  }

  /** The gate's verdict: the user is served, turned away with a message, or registered as pending. */
  datatype Gate = Admitted(user: User) | Turned(message: string) | Registered

  function UserGate(lookup: Result<Option<User>, DatabaseErrors.DatabaseError>): (g: Gate)
  {
    match lookup
    case Failure(_) => Turned(SystemErrorLater)
    case Success(None) => Registered
    case Success(Some(u)) => if IsAuthorized(u) then Admitted(u) else Turned(StatusMessage(u.status))
  }

  /** The alerts and the reply of the gate, when it does not admit the user. */
  function GateEffects(lookup: Result<Option<User>, DatabaseErrors.DatabaseError>, telegramId: string,
                       createUser: Reply): seq<Effect>
  {
    match UserGate(lookup)
    case Admitted(_) => []
    case Turned(m) =>
      (if lookup.Failure?
       then [Alerted(TextAlert("Database error for telegram_id " + telegramId + ": " + DatabaseErrors.ErrorText(lookup.error)))]
       else [])
      + [Answered(m, None)]
    case Registered =>
      (if createUser.Unreachable?
       then [Alerted(TextAlert("Failed to create pending user: " + DatabaseErrors.ErrorText(InsertOutcome(createUser).error)))]
       else [])
      + [Answered(AwaitingAdmin, None)]
  }

  /** The pending row written for a Telegram user seen for the first time. */
  function Newcomer(telegramId: string, t: Turn): User
  {
    User(t.assignedId, None, Some(telegramId), StatusPending, "telegram", t.now)
  }

  /**
   * Only active users get past the gate, and then as the one row stored under their Telegram id;
   * a user the server does not know is registered, and a failed lookup turns the user away.
   */
  lemma GateAdmitsOnlyActiveUsers(users: seq<User>, telegramId: string, reply: Reply)
    ensures var g := UserGate(LookupOne(UsersWithTelegramId(users, telegramId), reply));
      && (g.Admitted? ==> g.user in users && g.user.telegramId == Some(telegramId) && g.user.status == StatusActive)
      && (g.Registered? <==> LookupOne(UsersWithTelegramId(users, telegramId), reply) == Success(None))
      && (reply.Unreachable? ==> g == Turned(SystemErrorLater))
      && (reply.Accepted? && UsersWithTelegramId(users, telegramId) == [] ==> g.Registered?)
  {
    var rows := UsersWithTelegramId(users, telegramId);
    if reply.Accepted? && |rows| == 1 {
      assert rows[0] in rows;
    }
  }

  /** A newcomer's next message finds the pending row just written and is told to wait for approval. */
  lemma {:induction false} NewcomerWaitsForApproval(users: seq<User>, telegramId: string, t: Turn)
    requires UsersWithTelegramId(users, telegramId) == []
    ensures UserGate(LookupOne(UsersWithTelegramId(users + [Newcomer(telegramId, t)], telegramId), Accepted))
            == Turned(PendingApproval)
  {
    var all := users + [Newcomer(telegramId, t)];
    assert all[..|all| - 1] == users;
    assert UsersWithTelegramId(all, telegramId) == [Newcomer(telegramId, t)];
  }

  /** A user's row after an approval: a pending row becomes active, any other row is left as it is. */
  function Activated(u: User): User
  {
    if u.status == StatusPending then u.(status := StatusActive) else u
  }

  /** Approving a Telegram id activates exactly the pending rows stored under it. */
  lemma {:induction false} ApprovalActivatesRows(users: seq<User>, telegramId: string)
    ensures var rows := UsersWithTelegramId(users, telegramId);
      UsersWithTelegramId(ApproveRows(users, telegramId), telegramId) == seq(|rows|, i requires 0 <= i < |rows| => Activated(rows[i]))
    decreases |users|
  {
    if |users| > 0 {
      var n := |users|;
      var init := users[..n - 1];
      var approved := ApproveRows(users, telegramId);
      assert approved[..n - 1] == ApproveRows(init, telegramId);
      ApprovalActivatesRows(init, telegramId);
      var rows := UsersWithTelegramId(users, telegramId);
      var initRows := UsersWithTelegramId(init, telegramId);
      if users[n - 1].telegramId == Some(telegramId) {
        assert rows == initRows + [users[n - 1]];
      } else {
        assert rows == initRows;
      }
    }
  }

  /** Once an admin's approval is accepted, the user who was waiting is served. */
  lemma ApprovedUserIsAdmitted(users: seq<User>, telegramId: string)
    requires |UsersWithTelegramId(users, telegramId)| == 1
    requires UsersWithTelegramId(users, telegramId)[0].status == StatusPending
    ensures UserGate(LookupOne(UsersWithTelegramId(ApproveRows(users, telegramId), telegramId), Accepted))
            == Admitted(UsersWithTelegramId(users, telegramId)[0].(status := StatusActive))
  {
    ApprovalActivatesRows(users, telegramId);
  }

  /** The gate of `handle_message`: look the user up, register a newcomer, or answer and stop. */
  method GateUser(db: DatabaseService, telegramId: string, t: Turn) returns (g: Gate, effects: seq<Effect>)
    modifies db
    ensures g == UserGate(LookupOne(UsersWithTelegramId(old(db.users), telegramId), t.lookup))
    ensures effects == GateEffects(LookupOne(UsersWithTelegramId(old(db.users), telegramId), t.lookup), telegramId, t.createUser)
    ensures db.users == old(db.users) + (if g.Registered? && t.createUser.Accepted? then [Newcomer(telegramId, t)] else [])
    ensures db.sessions == old(db.sessions) && db.costEvents == old(db.costEvents)
    ensures db.conversations == old(db.conversations) && db.messages == old(db.messages)
  {
    var found := db.GetUserByTelegram(telegramId, t.lookup);
    g := UserGate(found);
    match found
    case Success(Some(u)) =>
      if !IsAuthorized(u) {
        effects := [Answered(StatusMessage(u.status), None)];
      } else {
        effects := [];
      }
    case Success(None) =>
      var created := db.CreatePendingTelegramUser(telegramId, t.assignedId, t.now, t.createUser);
      effects := [];
      if created.Failure? {
        effects := [Alerted(TextAlert("Failed to create pending user: " + DatabaseErrors.ErrorText(created.error)))];
      }
      effects := effects + [Answered(AwaitingAdmin, None)];
    case Failure(e) =>
      effects := [Alerted(TextAlert("Database error for telegram_id " + telegramId + ": " + DatabaseErrors.ErrorText(e))),
                  Answered(SystemErrorLater, None)];
  }

  // ------------------------------------------------------------ commands

  datatype Command =
    | Start
    | Help
    | ApproveTelegram(target: string)
    | ApproveWhatsapp(phone: string)
    | ListPending
    | SwitchLlm(model: string)
    | Ask(text: string)

  const ApproveTelegramPrefix := "/approve_telegram "
  const ApproveWhatsappPrefix := "/approve_whatsapp "
  const LlmPrefix := "/llm "

  /** The `match text` of `handle_message`: two exact commands, the prefixed ones, or a query. */
  function ParseCommand(text: string): (c: Command)
    ensures c.Ask? ==> c.text == text
  {
    if text == "/start" then Start
    else if text == "/help" then Help
    else if StartsWith(text, ApproveTelegramPrefix) then ApproveTelegram(Trim(text[|ApproveTelegramPrefix|..]))
    else if StartsWith(text, ApproveWhatsappPrefix) then ApproveWhatsapp(Trim(text[|ApproveWhatsappPrefix|..]))
    else if text == "/pending" then ListPending
    else if StartsWith(text, LlmPrefix) then SwitchLlm(Trim(text[|LlmPrefix|..]))
    else Ask(text)
  }

  /** Every command starts with '/', so any other text is a query. */
  lemma PlainTextIsQuery(text: string)
    requires |text| == 0 || text[0] != '/'
    ensures ParseCommand(text) == Ask(text)
  {
    assert "/start"[0] == '/' && "/help"[0] == '/' && "/pending"[0] == '/';
    assert ApproveTelegramPrefix[0] == '/' && ApproveWhatsappPrefix[0] == '/' && LlmPrefix[0] == '/';
  }

  /** A message starting with `/approve_telegram ` approves the trimmed rest of it. */
  lemma ApproveTelegramArgument(rest: string)
    ensures ParseCommand(ApproveTelegramPrefix + rest) == ApproveTelegram(Trim(rest))
  {
    var a := ApproveTelegramPrefix + rest;
    assert a[..|ApproveTelegramPrefix|] == ApproveTelegramPrefix && a[|ApproveTelegramPrefix|..] == rest;
  }

  /** A message starting with `/approve_whatsapp ` approves the trimmed rest of it as a phone number. */
  lemma ApproveWhatsappArgument(rest: string)
    ensures ParseCommand(ApproveWhatsappPrefix + rest) == ApproveWhatsapp(Trim(rest))
  {
    var w := ApproveWhatsappPrefix + rest;
    assert w[..|ApproveWhatsappPrefix|] == ApproveWhatsappPrefix && w[|ApproveWhatsappPrefix|..] == rest;
    assert w[..|ApproveTelegramPrefix|][9] == 'w' != ApproveTelegramPrefix[9];
  }

  /** A message starting with `/llm ` names the model in the trimmed rest of it. */
  lemma LlmArgument(rest: string)
    ensures ParseCommand(LlmPrefix + rest) == SwitchLlm(Trim(rest))
  {
    var l := LlmPrefix + rest;
    assert l[..|LlmPrefix|] == LlmPrefix && l[|LlmPrefix|..] == rest;
    assert l[1] == 'l';
    assert l != "/start" && l != "/help" && l != "/pending" by {
      assert "/start"[1] == 's' && "/help"[1] == 'h' && "/pending"[1] == 'p';
    }
    assert !StartsWith(l, ApproveTelegramPrefix) && !StartsWith(l, ApproveWhatsappPrefix) by {
      assert ApproveTelegramPrefix[1] == 'a' && ApproveWhatsappPrefix[1] == 'a';
      assert |l| < |ApproveTelegramPrefix| || l[..|ApproveTelegramPrefix|][1] == 'l';
    }
  }

  /** The commands only the admin may use. */
  predicate AdminOnly(c: Command)
  {
    c.ApproveTelegram? || c.ApproveWhatsapp? || c.ListPending? || c.SwitchLlm?
  }

  const Greeting := "Hello! I'm your Price Assistant. Send me your price / quotation queries."
  const AdminRequired := "\U{274C} Admin access required"
  const NoPendingApprovals := "No pending approvals"
  const PendingHeader := "\U{1F4CB} Pending Approvals:\n\n"
  const InvalidModel := "\U{274C} Invalid model. Use: /llm claude or /llm groq"

  /** The models `/llm` accepts. */
  predicate KnownModel(model: string)
  {
    model == "claude" || model == "groq"
  }

  /** `approve_telegram_user`'s answer for a server reply: whether the update was accepted. */
  function Approval(reply: Reply): Result<bool, DatabaseErrors.DatabaseError>
  {
    if reply.Unreachable? then Failure(DatabaseErrors.QueryError(reply.message)) else Success(reply.Accepted?)
  }

  function TelegramApprovalText(target: string, r: Result<bool, DatabaseErrors.DatabaseError>): string
  {
    match r
    case Success(true) => "\U{2705} Approved user: " + target
    case Success(false) => "\U{274C} User " + target + " not found or already approved"
    case Failure(e) => "\U{274C} Error approving user: " + DatabaseErrors.ErrorText(e)
  }

  function WhatsappApprovalText(phone: string, r: Result<(), DatabaseErrors.DatabaseError>): string
  {
    match r
    case Success(_) => "\U{2705} Approved WhatsApp user: " + phone
    case Failure(e) => "\U{274C} Error approving WhatsApp user: " + DatabaseErrors.ErrorText(e)
  }

  /** One line of the pending list: users without a Telegram id are skipped. */
  function PendingLine(u: User): string
  {
    if u.telegramId.Some? then "Telegram: " + u.telegramId.value + "\n" else ""
  }

  /** The text the `/pending` loop appends after the header. */
  function PendingLines(users: seq<User>): string
    decreases |users|
  {
    if |users| == 0 then "" else PendingLine(users[0]) + PendingLines(users[1..])
  }

  /** The entries the admin is shown: one per pending user with a Telegram id, in order. */
  function Listed(users: seq<User>): seq<string>
    decreases |users|
  {
    if |users| == 0 then []
    else (if users[0].telegramId.Some? then ["Telegram: " + users[0].telegramId.value] else []) + Listed(users[1..])
  }

  function PendingText(r: Result<seq<User>, DatabaseErrors.DatabaseError>): string
  {
    match r
    case Failure(e) => "\U{274C} Error fetching pending users: " + DatabaseErrors.ErrorText(e)
    case Success(users) => if |users| == 0 then NoPendingApprovals else PendingHeader + PendingLines(users)
  }

  lemma {:induction false} PendingLinesAppend(users: seq<User>, u: User)
    ensures PendingLines(users + [u]) == PendingLines(users) + PendingLine(u)
    decreases |users|
  {
    if |users| == 0 {
      assert ([u])[1..] == [];
    } else {
      assert (users + [u])[1..] == users[1..] + [u];
      PendingLinesAppend(users[1..], u);
    }
  }

  /**
   * The list after the header holds one line per listed user, each ended by a newline: splitting it
   * at newlines gives the entries and the empty piece after the last newline.
   */
  lemma {:induction false} PendingListing(users: seq<User>)
    requires forall i :: 0 <= i < |users| && users[i].telegramId.Some? ==> '\n' !in users[i].telegramId.value
    ensures Split(PendingLines(users), '\n') == Listed(users) + [""]
    decreases |users|
  {
    if |users| > 0 {
      PendingListing(users[1..]);
      var u := users[0];
      if u.telegramId.Some? {
        var entry := "Telegram: " + u.telegramId.value;
        assert '\n' !in entry by {
          assert forall k :: 0 <= k < |entry| ==> entry[k] in "Telegram: " || entry[k] in u.telegramId.value;
        }
        assert PendingLines(users) == entry + ['\n'] + PendingLines(users[1..]);
        SplitPrefix(entry, '\n', PendingLines(users[1..]));
        assert Listed(users) == [entry] + Listed(users[1..]);
      } else {
        assert PendingLines(users) == PendingLines(users[1..]);
        assert Listed(users) == Listed(users[1..]);
      }
    }
  }

  /** The `/pending` reply, built by the loop over the pending users. */
  method PendingReply(r: Result<seq<User>, DatabaseErrors.DatabaseError>) returns (text: string)
    ensures text == PendingText(r)
  {
    if r.Failure? {
      return "\U{274C} Error fetching pending users: " + DatabaseErrors.ErrorText(r.error);
    }
    var users := r.value;
    if |users| == 0 {
      return NoPendingApprovals;
    }
    var lines := "";
    for i := 0 to |users|
      invariant lines == PendingLines(users[..i])
    {
      PendingLinesAppend(users[..i], users[i]);
      assert users[..i + 1] == users[..i] + [users[i]];
      if users[i].telegramId.Some? {
        lines := lines + "Telegram: " + users[i].telegramId.value + "\n";
      }
    }
    assert users[..|users|] == users;
    text := PendingHeader + lines;
  }

  /** The reply to a command, given whether the sender is the admin and the server's reply. */
  function CommandReply(c: Command, admin: bool, users: seq<User>, helpFile: Option<string>, reply: Reply): string
    requires !c.Ask?
  {
    match c
    case Start => Greeting
    case Help => QueryFulfilment.HelpText(helpFile)
    case ApproveTelegram(target) => if admin then TelegramApprovalText(target, Approval(reply)) else AdminRequired
    case ApproveWhatsapp(phone) => if admin then WhatsappApprovalText(phone, InsertOutcome(reply)) else AdminRequired
    case ListPending => if admin then PendingText(ReadRows(reply, PendingUsers(users))) else AdminRequired
    case SwitchLlm(model) =>
      if !admin then AdminRequired
      else if KnownModel(model) then "\U{2705} Primary LLM switched to: " + model
      else InvalidModel
  }

  /** The user rows after a command. */
  function CommandUsers(c: Command, admin: bool, users: seq<User>, reply: Reply, t: Turn): seq<User>
  {
    if !admin || !reply.Accepted? then users
    else match c
      case ApproveTelegram(target) => ApproveRows(users, target)
      case ApproveWhatsapp(phone) => users + [User(t.assignedId, Some("whatsapp:" + phone), None, StatusActive, "whatsapp", t.now)]
      case _ => users
  }

  /**
   * The admin gate: a command reserved to the admin, sent by anyone else, is refused and changes
   * nothing; `/start` and `/help` never touch the tables.
   */
  lemma AdminCommandsNeedAdmin(c: Command, admin: bool, users: seq<User>, helpFile: Option<string>, reply: Reply, t: Turn)
    requires !c.Ask?
    ensures AdminOnly(c) && !admin ==> CommandReply(c, admin, users, helpFile, reply) == AdminRequired
    ensures !admin || !(c.ApproveTelegram? || c.ApproveWhatsapp?) ==> CommandUsers(c, admin, users, reply, t) == users
    ensures c.Help? ==> CommandReply(c, admin, users, helpFile, reply) == helpFile.GetOr(QueryFulfilment.HelpFallback)
  {
  }

  /** An accepted WhatsApp approval stores an active row under the prefixed number. */
  lemma WhatsappApprovalStoresActiveUser(phone: string, users: seq<User>, t: Turn)
    ensures var after := CommandUsers(ApproveWhatsapp(phone), true, users, Accepted, t);
      && |after| == |users| + 1 && after[..|users|] == users
      && after[|users|].phoneNumber == Some("whatsapp:" + phone) && IsAuthorized(after[|users|])
  {
  }

  /** The admin commands of `handle_message`, and `/start` and `/help`. */
  method RunCommand(db: DatabaseService, c: Command, telegramId: string, t: Turn)
    returns (response: Response, primary: Option<string>)
    requires !c.Ask?
    modifies db
    ensures response == TextResponse(CommandReply(c, db.IsAdmin(telegramId), old(db.users), t.helpFile, t.command))
    ensures primary == if c.SwitchLlm? && db.IsAdmin(telegramId) && KnownModel(c.model) then Some(c.model) else None
    ensures db.users == CommandUsers(c, db.IsAdmin(telegramId), old(db.users), t.command, t)
    ensures db.sessions == old(db.sessions) && db.costEvents == old(db.costEvents)
    ensures db.conversations == old(db.conversations) && db.messages == old(db.messages)
  {
    primary := None;
    if !AdminOnly(c) {
      response := TextResponse(if c.Start? then Greeting else QueryFulfilment.HelpText(t.helpFile));
      return;
    }
    if !db.IsAdmin(telegramId) {
      response := TextResponse(AdminRequired);
      return;
    }
    match c
    case ApproveTelegram(target) =>
      var r := db.ApproveTelegramUser(target, t.command);
      response := TextResponse(TelegramApprovalText(target, r));
    case ApproveWhatsapp(phone) =>
      var r := db.ApproveWhatsappUser(phone, t.assignedId, t.now, t.command);
      response := TextResponse(WhatsappApprovalText(phone, r));
    case ListPending =>
      var r := db.GetPendingUsers(t.command);
      var text := PendingReply(r);
      response := TextResponse(text);
    case SwitchLlm(model) =>
      if KnownModel(model) {
        primary := Some(model);
        response := TextResponse("\U{2705} Primary LLM switched to: " + model);
      } else {
        response := TextResponse(InvalidModel);
      }
  }

  // ------------------------------------------------------------ delivering a response

  /** The response's text, then its file, which is deleted afterwards unless it is a bundled asset. */
  function Delivery(response: Response): seq<Effect>
  {
    [Answered(response.text, None)]
    + match response.file
      case None => []
      case Some(path) => [DocumentSent(path)] + (if Contains(path, "assets") then [] else [FileRemoved(path)])
  }

  /**
   * A file is removed exactly when it was the response's file and its path does not mention
   * "assets", and only after it was sent; files under "assets/" are always kept.
   */
  lemma DeliveryCleansUp(response: Response, path: string)
    ensures Delivery(response)[0] == Answered(response.text, None)
    ensures DocumentSent(path) in Delivery(response) <==> response.file == Some(path)
    ensures FileRemoved(path) in Delivery(response) <==> response.file == Some(path) && !Contains(path, "assets")
    ensures FileRemoved(path) in Delivery(response) ==> Delivery(response)[1] == DocumentSent(path)
    ensures StartsWith(path, "assets/") ==> FileRemoved(path) !in Delivery(response)
  {
    if StartsWith(path, "assets/") {
      assert path[..6] == path[..7][..6];
    }
  }

  /** What the chat receives at the end of a query: the response, or the message for its error. */
  function Finish(outcome: Result<Response, QueryError>): seq<Effect>
  {
    match outcome
    case Success(response) => Delivery(response)
    case Failure(e) => [Answered(CreateErrorResponse(e).text, None)]
  }

  /** The completion a query's session records. */
  function Completion(outcome: Result<Response, QueryError>, elapsedMs: nat): Effect
  {
    match outcome
    case Success(response) => SessionCompletion(SuccessResult(response, elapsedMs))
    case Failure(e) => SessionCompletion(FailureResult(e, elapsedMs))
  }

  /** `effects` ends with `tail`. */
  predicate EndsIn(effects: seq<Effect>, tail: seq<Effect>)
  {
    |tail| <= |effects| && effects[|effects| - |tail|..] == tail
  }

  /** Whether the chat got a message. */
  predicate Replied(effects: seq<Effect>)
  {
    exists i :: 0 <= i < |effects| && effects[i].Answered?
  }

  lemma RepliedAt(effects: seq<Effect>, i: nat)
    requires i < |effects| && effects[i].Answered?
    ensures Replied(effects)
  {
  }

  // ------------------------------------------------------------ photos and voice notes

  /** A Telegram photo size; `width * height` is computed in `u32`, which wraps in a release build. */
  datatype PhotoSize = PhotoSize(fileId: string, width: nat, height: nat)

  function Area(p: PhotoSize): nat
  {
    (p.width * p.height) % 0x1_0000_0000
  }

  /**
   * `max_by_key` over the sizes by area: the index of a largest photo, and of the last one when
   * several are equally large; none for an empty list.
   */
  function LargestPhoto(photos: seq<PhotoSize>): (r: Option<nat>)
    ensures r.None? <==> |photos| == 0
    ensures r.Some? ==> r.value < |photos|
    ensures r.Some? ==> forall k :: 0 <= k < |photos| ==> Area(photos[k]) <= Area(photos[r.value])
    ensures r.Some? ==> forall k :: r.value < k < |photos| ==> Area(photos[k]) < Area(photos[r.value])
    decreases |photos|
  {
    if |photos| == 0 then None
    else
      var last := |photos| - 1;
      var best := LargestPhoto(photos[..last]);
      if best.None? || Area(photos[last]) >= Area(photos[best.value]) then Some(last) else best
  }

  /** The chosen photo is the only one that is as large as any and larger than every later one. */
  lemma LargestPhotoIsUnique(photos: seq<PhotoSize>, i: nat)
    requires i < |photos|
    requires forall k :: 0 <= k < |photos| ==> Area(photos[k]) <= Area(photos[i])
    requires forall k :: i < k < |photos| ==> Area(photos[k]) < Area(photos[i])
    ensures LargestPhoto(photos) == Some(i)
  {
    var r := LargestPhoto(photos).value;
    assert Area(photos[r]) <= Area(photos[i]) <= Area(photos[r]);
  }

  datatype MediaKind = Photo | Voice

  const NoPhoto := "No photo found"

  function Noun(kind: MediaKind): string
  {
    if kind == Photo then "image" else "voice"
  }

  /** `process_image_query` / `process_voice_query`: download the file, then hand it to fulfilment. */
  function MediaResult(kind: MediaKind, fileId: Option<string>, downloads: string -> Download,
                       answer: Result<Response, QueryError>): Result<Response, TelegramError>
  {
    if fileId.None? then Failure(ImageProcessingError(NoPhoto))
    else match downloads(fileId.value)
      case InfoFailed(m) => Failure(ImageProcessingError("Failed to get " + Noun(kind) + " file info: " + m))
      case DownloadFailed(m) => Failure(ImageProcessingError("Failed to download " + Noun(kind) + ": " + m))
      case Downloaded =>
        if answer.Success? then Success(answer.value) else Failure(ImageProcessingError(QueryTypes.ErrorText(answer.error)))
  }

  /** The query error a media failure is recorded as: an OCR error for a photo, a transcription error for audio. */
  function MediaQueryError(kind: MediaKind, e: TelegramError): QueryError
  {
    if !e.ImageProcessingError? then LLMError(TelegramErrorText(e))
    else if kind == Photo then OcrError(TelegramErrorText(e))
    else TranscriptionError(TelegramErrorText(e))
  }

  /**
   * The outcome of a photo or voice query: fulfilment's response when the file was found and
   * downloaded and fulfilment succeeded; otherwise an error of the medium's own kind, whatever went
   * wrong, so the user is told the image or the audio could not be processed.
   */
  function MediaOutcome(kind: MediaKind, fileId: Option<string>, downloads: string -> Download,
                        answer: Result<Response, QueryError>): (r: Result<Response, QueryError>)
    ensures r.Success? <==> fileId.Some? && downloads(fileId.value) == Downloaded && answer.Success?
    ensures r.Success? ==> r.value == answer.value
    ensures r.Failure? ==> UserMessage(r.error) == if kind == Photo then ImageUnreadable else AudioUnreadable
  {
    match MediaResult(kind, fileId, downloads, answer)
    case Success(response) => Success(response)
    case Failure(e) => Failure(MediaQueryError(kind, e))
  }

  /** The query type a photo or voice session is recorded under. */
  function MediaQueryType(kind: MediaKind): string
  {
    if kind == Photo then "image" else "audio"
  }

  function Notice(kind: MediaKind): string
  {
    if kind == Photo then "Processing request... please wait \U{23F3}" else "Processing audio... please wait \U{23F3}"
  }

  /** The session a query opens. */
  function OpenedSession(user: User, telegramId: string, queryText: string, queryType: string, t: Turn): QuerySession
  {
    var context := TelegramContext(user, telegramId, t.freshSessionId);
    QuerySession(context.sessionId, context.userId, queryText, queryType, "processing", None, 0.0, None,
                 context.platform, None, t.now)
  }

  /**
   * The session rows after a query: unchanged when the session could not be created, otherwise
   * with the opened row appended and then completed with the query's outcome.
   */
  function QuerySessions(sessions: seq<QuerySession>, costEvents: seq<CostEvent>, user: User, telegramId: string,
                         queryText: string, queryType: string, outcome: Result<Response, QueryError>, t: Turn)
    : seq<QuerySession>
  {
    if !t.createSession.Accepted? then sessions
    else CompletedSessions(sessions + [OpenedSession(user, telegramId, queryText, queryType, t)], costEvents,
                           t.freshSessionId, outcome, t.elapsedMs, t.totalReply, t.updateReply)
  }

  /**
   * A query under a fresh session id adds exactly one row, for the user on Telegram with the
   * query's text and type; it stays "processing" unless the completion was stored, and then
   * says "success" or "error" as the outcome did. A session that could not be created adds none.
   */
  lemma QuerySessionsRow(sessions: seq<QuerySession>, costEvents: seq<CostEvent>, user: User, telegramId: string,
                         queryText: string, queryType: string, outcome: Result<Response, QueryError>, t: Turn)
    requires forall i :: 0 <= i < |sessions| ==> sessions[i].id != t.freshSessionId
    ensures var after := QuerySessions(sessions, costEvents, user, telegramId, queryText, queryType, outcome, t);
      && (!t.createSession.Accepted? ==> after == sessions)
      && (t.createSession.Accepted? ==>
            && |after| == |sessions| + 1 && after[..|sessions|] == sessions
            && after[|sessions|].id == t.freshSessionId && after[|sessions|].userId == user.id
            && after[|sessions|].queryText == queryText && after[|sessions|].queryType == queryType
            && after[|sessions|].platform == "telegram" && after[|sessions|].createdAt == t.now
            && after[|sessions|].responseType
               == (if !t.updateReply.Accepted? then "processing" else if outcome.Success? then "success" else "error"))
  {
    if t.createSession.Accepted? {
      OpenedThenCompleted(sessions, OpenedSession(user, telegramId, queryText, queryType, t), costEvents, outcome,
                          t.elapsedMs, t.totalReply, t.updateReply);
    }
  }

  /** Completes the session of a query with its outcome. */
  method CompleteQuery(db: DatabaseService, context: SessionContext, queryText: string,
                       outcome: Result<Response, QueryError>, t: Turn) returns (effects: seq<Effect>)
    modifies db
    ensures |effects| > 0 && Completion(outcome, t.elapsedMs) in effects
    ensures db.sessions == CompletedSessions(old(db.sessions), old(db.costEvents), context.sessionId, outcome,
                                             t.elapsedMs, t.totalReply, t.updateReply)
    ensures db.users == old(db.users) && db.costEvents == old(db.costEvents)
    ensures db.conversations == old(db.conversations) && db.messages == old(db.messages)
  {
    match outcome
    case Success(response) =>
      effects := CompleteSessionWithSuccess(db, context, response, queryText, t.elapsedMs, t.totalReply,
                                            t.updateReply, t.eventsReply);
      assert effects[0] == Completion(outcome, t.elapsedMs);
    case Failure(e) =>
      effects := CompleteSessionWithError(db, context, e, queryText, t.elapsedMs, t.totalReply, t.updateReply,
                                          t.eventsReply);
      assert effects[1] == Completion(outcome, t.elapsedMs);
  }

  /**
   * The photo and voice branches of `handle_message`: a notice, a session, the download and the query,
   * the session's completion, then the response or the medium's error message.
   */
  method HandleMedia(db: DatabaseService, kind: MediaKind, user: User, telegramId: string, fileId: Option<string>,
                     queryText: string, t: Turn) returns (effects: seq<Effect>)
    modifies db
    ensures |effects| > 0 && effects[0] == Answered(Notice(kind), None)
    ensures !t.createSession.Accepted? ==>
              && effects == [Answered(Notice(kind), None), Alerted(TextAlert(SessionCreationFailed)), Answered(SystemError, None)]
              && db.sessions == old(db.sessions)
    ensures t.createSession.Accepted? ==>
              var outcome := MediaOutcome(kind, fileId, t.downloads, t.answer);
              && EndsIn(effects, Finish(outcome)) && Completion(outcome, t.elapsedMs) in effects
    ensures db.sessions == QuerySessions(old(db.sessions), old(db.costEvents), user, telegramId, queryText,
                                         MediaQueryType(kind), MediaOutcome(kind, fileId, t.downloads, t.answer), t)
    ensures Replied(effects)
    ensures db.users == old(db.users) && db.costEvents == old(db.costEvents)
    ensures db.conversations == old(db.conversations) && db.messages == old(db.messages)
  {
    effects := [Answered(Notice(kind), None)];
    RepliedAt(effects, 0);
    var context := TelegramContext(user, telegramId, t.freshSessionId);
    var created, opening := CreateSessionOrError(db, context, queryText, MediaQueryType(kind), t.now, t.createSession);
    if created.Failure? {
      effects := effects + opening + [Answered(SystemError, None)];
      RepliedAt(effects, 0);
      return;
    }
    var outcome := MediaOutcome(kind, fileId, t.downloads, t.answer);
    var completion := CompleteQuery(db, context, queryText, outcome, t);
    var finish := Finish(outcome);
    effects := effects + opening + completion + finish;
    assert effects[|effects| - |finish|..] == finish;
    assert opening == [];
    assert Completion(outcome, t.elapsedMs) in effects by {
      var k :| 0 <= k < |completion| && completion[k] == Completion(outcome, t.elapsedMs);
      assert effects[1 + k] == completion[k];
    }
    RepliedAt(effects, 0);
  }

  // ------------------------------------------------------------ text queries

  /** The answer a text query gets: fulfilment's response, or the message for its error. */
  function TextAnswer(answer: Result<Response, QueryError>): Response
  {
    match answer
    case Success(response) => response
    case Failure(e) => CreateErrorResponse(e)
  }

  /** The query branch for text: a session, the query, and its completion; no reply when the session failed. */
  method HandleAsk(db: DatabaseService, user: User, telegramId: string, text: string, t: Turn)
    returns (response: Option<Response>, effects: seq<Effect>)
    modifies db
    ensures response.None? <==> !t.createSession.Accepted?
    ensures response.None? ==> effects == [Alerted(TextAlert(SessionCreationFailed)), Answered(SystemError, None)]
    ensures response.None? ==> db.sessions == old(db.sessions)
    ensures response.Some? ==> response.value == TextAnswer(t.answer) && Completion(t.answer, t.elapsedMs) in effects
    ensures db.sessions == QuerySessions(old(db.sessions), old(db.costEvents), user, telegramId, text, "text", t.answer, t)
    ensures db.users == old(db.users) && db.costEvents == old(db.costEvents)
    ensures db.conversations == old(db.conversations) && db.messages == old(db.messages)
  {
    var context := TelegramContext(user, telegramId, t.freshSessionId);
    var created, opening := CreateSessionOrError(db, context, text, "text", t.now, t.createSession);
    if created.Failure? {
      return None, opening + [Answered(SystemError, None)];
    }
    effects := CompleteQuery(db, context, text, t.answer, t);
    response := Some(TextAnswer(t.answer));
  }

  // ------------------------------------------------------------ one message

  /** Whether a message is a query, which is when a session is opened for it. */
  predicate IsQuery(msg: Incoming)
  {
    msg.photos.Some? || (msg.text.Some? && ParseCommand(msg.text.value).Ask?) || (msg.text.None? && msg.voice.Some?)
  }

  /** Whether a message is an admin command that may change the user rows. */
  predicate IsApproval(msg: Incoming)
  {
    msg.photos.None? && msg.text.Some? && (ParseCommand(msg.text.value).ApproveTelegram? || ParseCommand(msg.text.value).ApproveWhatsapp?)
  }

  /** The file id of the largest photo, when there is one. */
  function PhotoFileId(photos: seq<PhotoSize>): Option<string>
  {
    match LargestPhoto(photos)
    case None => None
    case Some(i) => Some(photos[i].fileId)
  }

  /** The text a query message's session records. */
  function QueryTextOf(msg: Incoming): string
  {
    if msg.photos.Some? then "Image query + caption:" + Trim(msg.caption.GetOr(""))
    else if msg.text.Some? then msg.text.value
    else "Audio query"
  }

  /** The type a query message's session records. */
  function QueryTypeOf(msg: Incoming): string
  {
    if msg.photos.Some? then MediaQueryType(Photo) else if msg.text.Some? then "text" else MediaQueryType(Voice)
  }

  /** How a query message's query ends: the photo's or the voice note's outcome, or the text query's answer. */
  function QueryOutcome(msg: Incoming, t: Turn): Result<Response, QueryError>
  {
    if msg.photos.Some? then MediaOutcome(Photo, PhotoFileId(msg.photos.value), t.downloads, t.answer)
    else if msg.text.Some? then t.answer
    else MediaOutcome(Voice, msg.voice, t.downloads, t.answer)
  }

  const DocumentReceived := "I received a document! \U{1F4C4}"
  const UnknownMessage := "I received something, but I'm not sure what it was! \U{1F914}"

  /**
   * `handle_message`: the gate, then a photo (which wins over everything else), a text (a command or a
   * query), a voice note, a document, or anything else. `primary` is the model a `/llm` command
   * switches query fulfilment to.
   */
  method HandleMessage(db: DatabaseService, msg: Incoming, telegramId: string, t: Turn)
    returns (effects: seq<Effect>, primary: Option<string>)
    modifies db
    ensures var lookup := LookupOne(UsersWithTelegramId(old(db.users), telegramId), t.lookup);
      !UserGate(lookup).Admitted? ==>
        effects == GateEffects(lookup, telegramId, t.createUser) && primary.None? && db.sessions == old(db.sessions)
    ensures primary.Some? ==>
              && UserGate(LookupOne(UsersWithTelegramId(old(db.users), telegramId), t.lookup)).Admitted?
              && msg.photos.None? && msg.text.Some? && db.IsAdmin(telegramId)
              && ParseCommand(msg.text.value) == SwitchLlm(primary.value) && KnownModel(primary.value)
    ensures db.sessions != old(db.sessions) ==> IsQuery(msg)
    ensures var gate := UserGate(LookupOne(UsersWithTelegramId(old(db.users), telegramId), t.lookup));
      gate.Admitted? && IsQuery(msg) ==>
        db.sessions == QuerySessions(old(db.sessions), old(db.costEvents), gate.user, telegramId, QueryTextOf(msg),
                                     QueryTypeOf(msg), QueryOutcome(msg, t), t)
    ensures db.users != old(db.users) ==>
              UserGate(LookupOne(UsersWithTelegramId(old(db.users), telegramId), t.lookup)).Registered?
              || (IsApproval(msg) && db.IsAdmin(telegramId))
    ensures Replied(effects)
    ensures db.costEvents == old(db.costEvents)
    ensures db.conversations == old(db.conversations) && db.messages == old(db.messages)
  {
    primary := None;
    var gate, turned := GateUser(db, telegramId, t);
    if !gate.Admitted? {
      effects := turned;
      RepliedAt(effects, |effects| - 1);
      return;
    }
    var user := gate.user;
    if msg.photos.Some? {
      var fileId := PhotoFileId(msg.photos.value);
      var caption := Trim(msg.caption.GetOr(""));
      effects := HandleMedia(db, Photo, user, telegramId, fileId, "Image query + caption:" + caption, t);
      return;
    }
    if msg.text.Some? {
      var text := msg.text.value;
      var c := ParseCommand(text);
      var response: Response;
      if c.Ask? {
        var answered, queryEffects := HandleAsk(db, user, telegramId, text, t);
        if answered.None? {
          effects := queryEffects;
          RepliedAt(effects, 1);
          return;
        }
        response := answered.value;
        effects := queryEffects;
      } else {
        response, primary := RunCommand(db, c, telegramId, t);
        effects := [];
      }
      var delivered := Delivery(response);
      effects := effects + delivered;
      RepliedAt(effects, |effects| - |delivered|);
    } else if msg.voice.Some? {
      effects := HandleMedia(db, Voice, user, telegramId, Some(msg.voice.value), "Audio query", t);
    } else if msg.document {
      effects := [Answered(DocumentReceived, None)];
      RepliedAt(effects, 0);
    } else {
      effects := [Answered(UnknownMessage, None)];
      RepliedAt(effects, 0);
    }
  }
}
