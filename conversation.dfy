/**
 * The per-chat conversation: the intent each chat has announced with a
 * command, the lists staged for confirmation, and the two database tables
 * the confirmed lists go into.
 *
 * A handler is one atomic step of `Bot`. Where the handler answers the
 * user, the method returns the reply; `None` means the handler sends none.
 */
module Conversation {
  import opened Text
  import opened Emails
  import opened Phones
  import opened Extract

  type ChatId = int

  /** What the chat's last command asked for: `'email'`, `'phone'` or `'password'`. */
  datatype Intent = EmailIntent | PhoneIntent | PasswordIntent

  /** A chat's `chat_data`: the lists waiting for `/yes`, each possibly never set. */
  datatype Staged = Staged(emailsToAdd: Option<seq<string>>, phoneNumbersToAdd: Option<seq<string>>)

  const NothingStaged := Staged(None, None)

  /**
   * How the database behaves during one batch insert: the connection is
   * refused, the insert of row `row` raises, the commit raises, or all goes
   * through.
   */
  datatype StoreOutcome = ConnectFails | InsertFails(row: nat) | CommitFails | Healthy

  const AskForEmailsText: string := "Пожалуйста, отправьте текст, в котором нужно найти email-адреса."
  const AskForPhonesText: string := "Пожалуйста, отправьте текст, в котором нужно найти номера телефонов."
  const AskForPasswordText: string := "Пожалуйста, отправьте пароль для проверки его сложности."
  const NoEmailsText: string := "Email-адреса не найдены."
  const NoPhonesText: string := "Номера телефонов не найдены."
  const ConfirmPromptText: string := "\nДобавить в базу данных? (/yes или /no)"
  const EmailsAddedText: string := "Email-адреса успешно добавлены в базу данных."
  const PhonesAddedText: string := "Номера телефонов успешно добавлены в базу данных."
  const CancelledText: string := "Операция отменена."
  const InvalidCommandText: string := "Неверная команда."
  const HelpText: string := "Неверная команда. Используйте /find_email, /find_phone_number, /verify_password, /get_release, /get_uname, /get_uptime, /get_df, /get_free, /get_mpstat, /get_w, /get_auths, /get_critical, /get_ps, /get_ss, /get_apt_list, /get_services или /get_repl_log /get_phone_numbers, /get_emails"

  const FoundEmailsHeader: string := "Найденные email-адреса:\n"
  const FoundPhonesHeader: string := "Найденные номера телефонов:\n"

  function FoundEmailsReply(found: seq<string>): string
  {
    FoundEmailsHeader + Join(found, "\n") + ConfirmPromptText
  }

  function FoundPhonesReply(found: seq<string>): string
  {
    FoundPhonesHeader + Join(found, "\n") + ConfirmPromptText
  }

  /** The reply listing found emails opens with its header, has the first email right after it, and ends with the prompt. */
  lemma FoundEmailsReplyShape(found: seq<string>)
    ensures var reply := FoundEmailsReply(found);
      && |FoundEmailsHeader| + |ConfirmPromptText| <= |reply|
      && reply[..|FoundEmailsHeader|] == FoundEmailsHeader
      && reply[|reply| - |ConfirmPromptText|..] == ConfirmPromptText
    ensures found != [] ==> var reply := FoundEmailsReply(found);
      && |FoundEmailsHeader| + |found[0]| + |ConfirmPromptText| <= |reply|
      && reply[|FoundEmailsHeader|..|FoundEmailsHeader| + |found[0]|] == found[0]
  {
    JoinEnds(found, "\n");
  }

  /** The same for phone numbers. */
  lemma FoundPhonesReplyShape(found: seq<string>)
    ensures var reply := FoundPhonesReply(found);
      && |FoundPhonesHeader| + |ConfirmPromptText| <= |reply|
      && reply[..|FoundPhonesHeader|] == FoundPhonesHeader
      && reply[|reply| - |ConfirmPromptText|..] == ConfirmPromptText
    ensures found != [] ==> var reply := FoundPhonesReply(found);
      && |FoundPhonesHeader| + |found[0]| + |ConfirmPromptText| <= |reply|
      && reply[|FoundPhonesHeader|..|FoundPhonesHeader| + |found[0]|] == found[0]
  {
    JoinEnds(found, "\n");
  }

  /** The batch reaches the table: the connection opens, no insert raises and the commit succeeds. */
  predicate Commits(store: StoreOutcome, rows: nat)
  {
    store == Healthy || (store.InsertFails? && store.row >= rows)
  }

  /** The table after a batch insert: all rows appended, or, on any failure, nothing. */
  function AfterBatch(table: seq<string>, rows: seq<string>, store: StoreOutcome): seq<string>
  {
    if Commits(store, |rows|) then table + rows else table
  }

  /**
   * `add_emails_to_db` and `add_phone_numbers_to_db`: insert the rows one by
   * one in a transaction, commit, and roll back on the first error.
   */
  method AddRows(table: seq<string>, rows: seq<string>, store: StoreOutcome) returns (result: seq<string>)
    ensures result == AfterBatch(table, rows, store)
  {
    if store == ConnectFails {
      return table;
    }
    var pending: seq<string> := [];
    var i := 0;
    while i < |rows|
      invariant 0 <= i <= |rows|
      invariant pending == rows[..i]
      invariant store.InsertFails? ==> store.row >= i
    {
      if store == InsertFails(i) {
        return table;
      }
      pending := pending + [rows[i]];
      i := i + 1;
    }
    if store == CommitFails {
      return table;
    }
    assert pending == rows;
    return table + pending;
  }

  /** The staged emails are a non-empty list of emails, and the staged phone numbers one of phone numbers. */
  predicate StagedFromExtraction(s: Staged)
  {
    && (s.emailsToAdd.Some? ==> s.emailsToAdd.value != [] && forall m | m in s.emailsToAdd.value :: IsEmail(m))
    && (s.phoneNumbersToAdd.Some? ==> s.phoneNumbersToAdd.value != [] && forall m | m in s.phoneNumbersToAdd.value :: IsPhone(m))
  }

  /** `table` is `start` followed by rows that all satisfy `p`. */
  ghost predicate AddedRows(start: seq<string>, table: seq<string>, p: string -> bool)
  {
    && |start| <= |table| && table[..|start|] == start
    && forall x | |start| <= x < |table| :: p(table[x])
  }

  class Bot {
    /** `user_states` */
    var userStates: map<ChatId, Intent>
    /** `context.chat_data` for each chat; a missing chat has nothing staged. */
    var chatData: map<ChatId, Staged>
    /** The `emails` table. */
    var emails: seq<string>
    /** The `phone_numbers` table. */
    var phoneNumbers: seq<string>
    /** The rows the `emails` table held when the bot started. */
    ghost var startEmails: seq<string>
    /** The rows the `phone_numbers` table held when the bot started. */
    ghost var startPhoneNumbers: seq<string>

    /**
     * Only a chat with an intent has staged data, every staged list is a
     * non-empty extraction result, and the tables keep the rows they started
     * with, followed only by rows that satisfy their grammar.
     */
    ghost predicate Valid()
      reads this
    {
      && chatData.Keys <= userStates.Keys
      && (forall c | c in chatData :: StagedFromExtraction(chatData[c]))
      && AddedRows(startEmails, emails, IsEmail)
      && AddedRows(startPhoneNumbers, phoneNumbers, IsPhone)
    }

    function Staging(chat: ChatId): Staged
      reads this
    {
      if chat in chatData then chatData[chat] else NothingStaged
    }

    /** `chat_data.get('emails_to_add', [])` */
    function StagedEmails(chat: ChatId): (found: seq<string>)
      reads this
      ensures chat !in chatData ==> found == []
      ensures Valid() ==> forall m | m in found :: IsEmail(m)
    {
      match Staging(chat).emailsToAdd
      case Some(found) => found
      case None => []
    }

    /** `chat_data.get('phone_numbers_to_add', [])` */
    function StagedPhoneNumbers(chat: ChatId): (found: seq<string>)
      reads this
      ensures chat !in chatData ==> found == []
      ensures Valid() ==> forall m | m in found :: IsPhone(m)
    {
      match Staging(chat).phoneNumbersToAdd
      case Some(found) => found
      case None => []
    }

    /** A bot over tables that already hold rows, whatever they are. */
    constructor(emailRows: seq<string>, phoneRows: seq<string>)
      ensures userStates == map[] && chatData == map[]
      ensures emails == emailRows && phoneNumbers == phoneRows
      ensures startEmails == emailRows && startPhoneNumbers == phoneRows
      ensures Valid()
    {
      userStates := map[];
      chatData := map[];
      emails := emailRows;
      phoneNumbers := phoneRows;
      startEmails := emailRows;
      startPhoneNumbers := phoneRows;
    }

    /** `/find_email`: the chat now wants emails; anything staged stays. */
    method FindEmail(chat: ChatId) returns (reply: string)
      requires Valid()
      modifies this
      ensures Valid()
      ensures startEmails == old(startEmails) && startPhoneNumbers == old(startPhoneNumbers)
      ensures userStates == old(userStates)[chat := EmailIntent]
      ensures chatData == old(chatData)
      ensures emails == old(emails) && phoneNumbers == old(phoneNumbers)
      ensures reply == AskForEmailsText
    {
      userStates := userStates[chat := EmailIntent];
      reply := AskForEmailsText;
    }

    /** `/find_phone_number`: the chat now wants phone numbers; anything staged stays. */
    method FindPhoneNumber(chat: ChatId) returns (reply: string)
      requires Valid()
      modifies this
      ensures Valid()
      ensures startEmails == old(startEmails) && startPhoneNumbers == old(startPhoneNumbers)
      ensures userStates == old(userStates)[chat := PhoneIntent]
      ensures chatData == old(chatData)
      ensures emails == old(emails) && phoneNumbers == old(phoneNumbers)
      ensures reply == AskForPhonesText
    {
      userStates := userStates[chat := PhoneIntent];
      reply := AskForPhonesText;
    }

    /** `/verify_password`: the chat now announces a password; anything staged stays. */
    method VerifyPassword(chat: ChatId) returns (reply: string)
      requires Valid()
      modifies this
      ensures Valid()
      ensures startEmails == old(startEmails) && startPhoneNumbers == old(startPhoneNumbers)
      ensures userStates == old(userStates)[chat := PasswordIntent]
      ensures chatData == old(chatData)
      ensures emails == old(emails) && phoneNumbers == old(phoneNumbers)
      ensures reply == AskForPasswordText
    {
      userStates := userStates[chat := PasswordIntent];
      reply := AskForPasswordText;
    }

    /**
     * A plain text message. With the email or phone intent it extracts and,
     * when something is found, stages the list in place of the one staged
     * before. Text sent after `/verify_password` is ignored. The intent stays.
     */
    method TextMessage(chat: ChatId, text: string) returns (reply: Option<string>)
      requires Valid()
      modifies this
      ensures Valid()
      ensures startEmails == old(startEmails) && startPhoneNumbers == old(startPhoneNumbers)
      ensures userStates == old(userStates)
      ensures emails == old(emails) && phoneNumbers == old(phoneNumbers)
      ensures chat !in old(userStates) ==> reply == Some(HelpText) && chatData == old(chatData)
      ensures chat in old(userStates) && old(userStates)[chat] == PasswordIntent ==>
        reply == None && chatData == old(chatData)
      ensures chat in old(userStates) && old(userStates)[chat] == EmailIntent ==>
        var found := FindEmails(text);
        if found == [] then
          reply == Some(NoEmailsText) && chatData == old(chatData)
        else
          && reply == Some(FoundEmailsReply(found))
          && chatData == old(chatData)[chat := old(Staging(chat)).(emailsToAdd := Some(found))]
      ensures chat in old(userStates) && old(userStates)[chat] == PhoneIntent ==>
        var found := FindPhoneNumbers(text);
        if found == [] then
          reply == Some(NoPhonesText) && chatData == old(chatData)
        else
          && reply == Some(FoundPhonesReply(found))
          && chatData == old(chatData)[chat := old(Staging(chat)).(phoneNumbersToAdd := Some(found))]
    {
      if chat !in userStates {
        return Some(HelpText);
      }
      match userStates[chat]
      case EmailIntent =>
        var found := FindEmails(text);
        if found != [] {
          chatData := chatData[chat := Staging(chat).(emailsToAdd := Some(found))];
          reply := Some(FoundEmailsReply(found));
        } else {
          reply := Some(NoEmailsText);
        }
      case PhoneIntent =>
        var found := FindPhoneNumbers(text);
        if found != [] {
          chatData := chatData[chat := Staging(chat).(phoneNumbersToAdd := Some(found))];
          reply := Some(FoundPhonesReply(found));
        } else {
          reply := Some(NoPhonesText);
        }
      case PasswordIntent =>
        reply := None;
    }

    /**
     * `/yes`: store the list staged for the chat's intent (an empty one if
     * none is staged), report success whatever the database did, then forget
     * the intent and everything staged.
     */
    method YesHandler(chat: ChatId, store: StoreOutcome) returns (reply: Option<string>)
      requires Valid()
      modifies this
      ensures Valid()
      ensures startEmails == old(startEmails) && startPhoneNumbers == old(startPhoneNumbers)
      ensures chat !in old(userStates) ==> reply == Some(InvalidCommandText) && unchanged(this)
      ensures chat in old(userStates) ==>
        userStates == old(userStates) - {chat} && chatData == old(chatData) - {chat}
      ensures chat in old(userStates) && old(userStates)[chat] == EmailIntent ==>
        && reply == Some(EmailsAddedText)
        && emails == AfterBatch(old(emails), old(StagedEmails(chat)), store)
        && phoneNumbers == old(phoneNumbers)
      ensures chat in old(userStates) && old(userStates)[chat] == PhoneIntent ==>
        && reply == Some(PhonesAddedText)
        && phoneNumbers == AfterBatch(old(phoneNumbers), old(StagedPhoneNumbers(chat)), store)
        && emails == old(emails)
      ensures chat in old(userStates) && old(userStates)[chat] == PasswordIntent ==>
        reply == None && emails == old(emails) && phoneNumbers == old(phoneNumbers)
    {
      if chat !in userStates {
        return Some(InvalidCommandText);
      }
      match userStates[chat] {
        case EmailIntent =>
          emails := AddRows(emails, StagedEmails(chat), store);
          reply := Some(EmailsAddedText);
        case PhoneIntent =>
          phoneNumbers := AddRows(phoneNumbers, StagedPhoneNumbers(chat), store);
          reply := Some(PhonesAddedText);
        case PasswordIntent =>
          reply := None;
      }
      userStates := userStates - {chat};
      chatData := chatData - {chat};
    }

    /** `/no`: forget the intent and everything staged, storing nothing. */
    method NoHandler(chat: ChatId) returns (reply: string)
      requires Valid()
      modifies this
      ensures Valid()
      ensures startEmails == old(startEmails) && startPhoneNumbers == old(startPhoneNumbers)
      ensures chat !in old(userStates) ==> reply == InvalidCommandText && unchanged(this)
      ensures chat in old(userStates) ==>
        && reply == CancelledText
        && userStates == old(userStates) - {chat}
        && chatData == old(chatData) - {chat}
        && emails == old(emails) && phoneNumbers == old(phoneNumbers)
    {
      if chat !in userStates {
        return InvalidCommandText;
      }
      reply := CancelledText;
      userStates := userStates - {chat};
      chatData := chatData - {chat};
    }
  }

  /**
   * `/find_email` and then a text: the chat wants emails, and what the text
   * yields, when it yields anything, is staged in place of the earlier list.
   */
  method AskAndSendEmails(bot: Bot, chat: ChatId, text: string)
    requires bot.Valid()
    modifies bot
    ensures bot.Valid()
    ensures bot.userStates == old(bot.userStates)[chat := EmailIntent]
    ensures bot.StagedEmails(chat) == if FindEmails(text) != [] then FindEmails(text) else old(bot.StagedEmails(chat))
    ensures bot.StagedPhoneNumbers(chat) == old(bot.StagedPhoneNumbers(chat))
    ensures bot.emails == old(bot.emails) && bot.phoneNumbers == old(bot.phoneNumbers)
    ensures bot.startEmails == old(bot.startEmails) && bot.startPhoneNumbers == old(bot.startPhoneNumbers)
  {
    var _ := bot.FindEmail(chat);
    var _ := bot.TextMessage(chat, text);
  }

  /** `/find_email`, a text, `/yes`: the emails table grows by exactly what the text yields. */
  method ConfirmStoresFoundEmails(chat: ChatId, text: string, emailRows: seq<string>, phoneRows: seq<string>)
    returns (storedEmails: seq<string>, storedPhones: seq<string>, reply: Option<string>)
    ensures storedEmails == emailRows + FindEmails(text) && storedPhones == phoneRows
    ensures reply == Some(EmailsAddedText)
  {
    var bot := new Bot(emailRows, phoneRows);
    AskAndSendEmails(bot, chat, text);
    reply := bot.YesHandler(chat, Healthy);
    storedEmails, storedPhones := bot.emails, bot.phoneNumbers;
  }

  /** The same for phone numbers. */
  method ConfirmStoresFoundPhoneNumbers(chat: ChatId, text: string, emailRows: seq<string>, phoneRows: seq<string>)
    returns (storedEmails: seq<string>, storedPhones: seq<string>, reply: Option<string>)
    ensures storedPhones == phoneRows + FindPhoneNumbers(text) && storedEmails == emailRows
    ensures reply == Some(PhonesAddedText)
  {
    var bot := new Bot(emailRows, phoneRows);
    var _ := bot.FindPhoneNumber(chat);
    var _ := bot.TextMessage(chat, text);
    reply := bot.YesHandler(chat, Healthy);
    storedEmails, storedPhones := bot.emails, bot.phoneNumbers;
  }

  /** `/no` after a staged list: neither table is written. */
  method CancelStoresNothing(chat: ChatId, text: string, emailRows: seq<string>, phoneRows: seq<string>)
    returns (storedEmails: seq<string>, storedPhones: seq<string>, reply: string)
    ensures storedEmails == emailRows && storedPhones == phoneRows
    ensures reply == CancelledText
  {
    var bot := new Bot(emailRows, phoneRows);
    AskAndSendEmails(bot, chat, text);
    reply := bot.NoHandler(chat);
    storedEmails, storedPhones := bot.emails, bot.phoneNumbers;
  }

  /**
   * A list staged before `/find_email` is sent again survives a second text
   * in which nothing is found, and `/yes` stores it.
   */
  method StaleListStored(chat: ChatId, first: string, second: string, emailRows: seq<string>, phoneRows: seq<string>)
    returns (storedEmails: seq<string>)
    ensures storedEmails == emailRows + if FindEmails(second) != [] then FindEmails(second) else FindEmails(first)
  {
    var bot := new Bot(emailRows, phoneRows);
    AskAndSendEmails(bot, chat, first);
    AskAndSendEmails(bot, chat, second);
    var _ := bot.YesHandler(chat, Healthy);
    storedEmails := bot.emails;
  }

  /**
   * Switching to `/find_phone_number` after emails were staged and then
   * confirming stores nothing, yet reports that phone numbers were added.
   */
  method SwitchedIntentStoresNothing(chat: ChatId, text: string, emailRows: seq<string>, phoneRows: seq<string>)
    returns (storedEmails: seq<string>, storedPhones: seq<string>, reply: Option<string>)
    ensures storedEmails == emailRows && storedPhones == phoneRows
    ensures reply == Some(PhonesAddedText)
  {
    var bot := new Bot(emailRows, phoneRows);
    AskAndSendEmails(bot, chat, text);
    var _ := bot.FindPhoneNumber(chat);
    reply := bot.YesHandler(chat, Healthy);
    storedEmails, storedPhones := bot.emails, bot.phoneNumbers;
  }

  /** A database failure loses the list, but the reply still reports success. */
  method FailedStoreReportsSuccess(chat: ChatId, text: string, store: StoreOutcome, emailRows: seq<string>, phoneRows: seq<string>)
    returns (storedEmails: seq<string>, reply: Option<string>)
    requires !Commits(store, |FindEmails(text)|)
    ensures storedEmails == emailRows && reply == Some(EmailsAddedText)
  {
    var bot := new Bot(emailRows, phoneRows);
    AskAndSendEmails(bot, chat, text);
    reply := bot.YesHandler(chat, store);
    storedEmails := bot.emails;
  }

  /** After `/verify_password` a text gets no answer and `/yes` neither; the chat then starts over. */
  method PasswordTextIgnored(chat: ChatId, password: string, emailRows: seq<string>, phoneRows: seq<string>)
    returns (textReply: Option<string>, yesReply: Option<string>, helpReply: Option<string>)
    ensures textReply == None && yesReply == None
    ensures helpReply == Some(HelpText)
  {
    var bot := new Bot(emailRows, phoneRows);
    var _ := bot.VerifyPassword(chat);
    textReply := bot.TextMessage(chat, password);
    yesReply := bot.YesHandler(chat, Healthy);
    helpReply := bot.TextMessage(chat, password);
  }
}
