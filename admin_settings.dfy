/**
 * `/api/admin/settings`: the site settings form. POST clears the non-admin rows of the
 * settings table and writes one row per filled-in field (the field's name as the description,
 * its value as `telegram_key`); GET starts from fixed defaults and overrides them only with rows
 * whose description is itself a JSON object text.
 */
module AdminSettings {
  import opened Wrappers
  import opened Text
  import opened Seqs
  import opened Http
  import opened Schema

  datatype SocialLinks = SocialLinks(telegram: string, whatsapp: string, instagram: string, vk: string)

  /**
   * The form the admin page posts. A text field holds "" when it is absent or empty (both are
   * falsy); `socialLinks` is an object or absent; the two switches are their truthiness.
   */
  datatype SettingsForm = SettingsForm(
    phone: string,
    email: string,
    address: string,
    socialLinks: Option<SocialLinks>,
    siteTitle: string,
    siteDescription: string,
    keywords: string,
    metaDescription: string,
    logoUrl: string,
    bannerUrl: string,
    welcomeText: string,
    aboutText: string,
    emailNotifications: bool,
    telegramNotifications: bool,
    telegramBotToken: string,
    telegramChatId: string,
    notificationEmail: string)

  /** The form's fields, each of which may become a row. */
  datatype Field =
    | Phone | Email | Address | Social | SiteTitle | SiteDescription | Keywords | MetaDescription
    | LogoUrl | BannerUrl | WelcomeText | AboutText | EmailNotifications | TelegramNotifications
    | TelegramBotToken | TelegramChatId | NotificationEmail

  /** The description a field's row carries. */
  function Name(f: Field): string {
    match f
    case Phone => "phone"
    case Email => "email"
    case Address => "address"
    case Social => "socialLinks"
    case SiteTitle => "siteTitle"
    case SiteDescription => "siteDescription"
    case Keywords => "keywords"
    case MetaDescription => "metaDescription"
    case LogoUrl => "logoUrl"
    case BannerUrl => "bannerUrl"
    case WelcomeText => "welcomeText"
    case AboutText => "aboutText"
    case EmailNotifications => "emailNotifications"
    case TelegramNotifications => "telegramNotifications"
    case TelegramBotToken => "telegramBotToken"
    case TelegramChatId => "telegramChatId"
    case NotificationEmail => "notificationEmail"
  }

  /** No field's row description starts with '{'. */
  lemma NamesAreNotJson(f: Field)
    ensures Name(f) != [] && Name(f)[0] != '{'
  {
  }

  /** The order in which the handler pushes the fields onto `settingsToSave`. */
  const FieldOrder: seq<Field> := [
    Phone, Email, Address, Social, SiteTitle, SiteDescription, Keywords, MetaDescription,
    LogoUrl, BannerUrl, WelcomeText, AboutText, EmailNotifications, TelegramNotifications,
    TelegramBotToken, TelegramChatId, NotificationEmail]

  /** Where a field stands in the handler's order. */
  function Position(f: Field): (i: nat)
    ensures i < |FieldOrder| && FieldOrder[i] == f
  {
    match f
    case Phone => 0
    case Email => 1
    case Address => 2
    case Social => 3
    case SiteTitle => 4
    case SiteDescription => 5
    case Keywords => 6
    case MetaDescription => 7
    case LogoUrl => 8
    case BannerUrl => 9
    case WelcomeText => 10
    case AboutText => 11
    case EmailNotifications => 12
    case TelegramNotifications => 13
    case TelegramBotToken => 14
    case TelegramChatId => 15
    case NotificationEmail => 16
  }

  /** The handler pushes each field at most once. */
  lemma FieldOrderDistinct()
    ensures forall i, j :: 0 <= i < j < |FieldOrder| ==> FieldOrder[i] != FieldOrder[j]
  {
    forall i, j | 0 <= i < j < |FieldOrder|
      ensures FieldOrder[i] != FieldOrder[j]
    {
      assert Position(FieldOrder[i]) == i;
    }
  }

  function BoolText(b: bool): string { if b then "true" else "false" }

  /**
   * The `telegram_key` a field is stored under, or None when it writes no row: an empty text
   * field writes nothing, the links are stored as their JSON text (`stringify` is
   * `JSON.stringify`), and the two switches are always stored, as 'true' or 'false'.
   */
  function ValueOf(form: SettingsForm, stringify: SocialLinks -> string, f: Field): (r: Option<string>)
    ensures f == Social ==> (r.Some? <==> form.socialLinks.Some?)
    ensures f == EmailNotifications ==> r == Some(if form.emailNotifications then "true" else "false")
    ensures f == TelegramNotifications ==> r == Some(if form.telegramNotifications then "true" else "false")
    ensures f != Social && r.Some? ==> r.value != ""
    ensures f == Phone ==> (r.Some? <==> form.phone != "") && (r.Some? ==> r.value == form.phone)
    ensures f == Email ==> (r.Some? <==> form.email != "") && (r.Some? ==> r.value == form.email)
    ensures f == Address ==> (r.Some? <==> form.address != "") && (r.Some? ==> r.value == form.address)
    ensures f == SiteTitle ==> (r.Some? <==> form.siteTitle != "") && (r.Some? ==> r.value == form.siteTitle)
    ensures f == SiteDescription ==> (r.Some? <==> form.siteDescription != "") && (r.Some? ==> r.value == form.siteDescription)
    ensures f == Keywords ==> (r.Some? <==> form.keywords != "") && (r.Some? ==> r.value == form.keywords)
    ensures f == MetaDescription ==> (r.Some? <==> form.metaDescription != "") && (r.Some? ==> r.value == form.metaDescription)
    ensures f == LogoUrl ==> (r.Some? <==> form.logoUrl != "") && (r.Some? ==> r.value == form.logoUrl)
    ensures f == BannerUrl ==> (r.Some? <==> form.bannerUrl != "") && (r.Some? ==> r.value == form.bannerUrl)
    ensures f == WelcomeText ==> (r.Some? <==> form.welcomeText != "") && (r.Some? ==> r.value == form.welcomeText)
    ensures f == AboutText ==> (r.Some? <==> form.aboutText != "") && (r.Some? ==> r.value == form.aboutText)
    ensures f == TelegramBotToken ==> (r.Some? <==> form.telegramBotToken != "") && (r.Some? ==> r.value == form.telegramBotToken)
    ensures f == TelegramChatId ==> (r.Some? <==> form.telegramChatId != "") && (r.Some? ==> r.value == form.telegramChatId)
    ensures f == NotificationEmail ==> (r.Some? <==> form.notificationEmail != "") && (r.Some? ==> r.value == form.notificationEmail)
    ensures f == Social && form.socialLinks.Some? ==> r == Some(stringify(form.socialLinks.value))
  {
    match f
    case Phone => Truthy(form.phone)
    case Email => Truthy(form.email)
    case Address => Truthy(form.address)
    case Social => if form.socialLinks.Some? then Some(stringify(form.socialLinks.value)) else None
    case SiteTitle => Truthy(form.siteTitle)
    case SiteDescription => Truthy(form.siteDescription)
    case Keywords => Truthy(form.keywords)
    case MetaDescription => Truthy(form.metaDescription)
    case LogoUrl => Truthy(form.logoUrl)
    case BannerUrl => Truthy(form.bannerUrl)
    case WelcomeText => Truthy(form.welcomeText)
    case AboutText => Truthy(form.aboutText)
    case EmailNotifications => Some(BoolText(form.emailNotifications))
    case TelegramNotifications => Some(BoolText(form.telegramNotifications))
    case TelegramBotToken => Truthy(form.telegramBotToken)
    case TelegramChatId => Truthy(form.telegramChatId)
    case NotificationEmail => Truthy(form.notificationEmail)
  }

  /** One element of `settingsToSave`: the row's description is the field's name. */
  datatype Pending = Pending(field: Field, telegramKey: string)

  function FieldsOf(ps: seq<Pending>): (r: seq<Field>)
    ensures |r| == |ps| && forall i :: 0 <= i < |ps| ==> r[i] == ps[i].field
  {
    if ps == [] then [] else [ps[0].field] + FieldsOf(ps[1..])
  }

  /** The pushes for `fields`, in order: one per field that has a value. */
  function PendingFor(form: SettingsForm, stringify: SocialLinks -> string, fields: seq<Field>): (r: seq<Pending>)
    ensures forall i :: 0 <= i < |r| ==> r[i].field in fields && ValueOf(form, stringify, r[i].field) == Some(r[i].telegramKey)
    ensures forall f :: f in fields && ValueOf(form, stringify, f).Some? ==> Pending(f, ValueOf(form, stringify, f).value) in r
    ensures IsSubsequence(FieldsOf(r), fields)
  {
    if fields == [] then []
    else
      var rest := PendingFor(form, stringify, fields[1..]);
      match ValueOf(form, stringify, fields[0])
      case None =>
        SubsequenceOfTail(FieldsOf(rest), fields);
        rest
      case Some(v) =>
        var r := [Pending(fields[0], v)] + rest;
        assert r[1..] == rest;
        assert FieldsOf(r)[1..] == FieldsOf(rest);
        r
  }

  /**
   * `settingsToSave`: an entry for each field with a value and for no other, holding that
   * value, each field at most once, in the handler's field order.
   */
  function ToSave(form: SettingsForm, stringify: SocialLinks -> string): (r: seq<Pending>)
    ensures forall f :: (exists i :: 0 <= i < |r| && r[i].field == f) <==> ValueOf(form, stringify, f).Some?
    ensures forall i :: 0 <= i < |r| ==> ValueOf(form, stringify, r[i].field) == Some(r[i].telegramKey)
    ensures forall i, j :: 0 <= i < j < |r| ==> r[i].field != r[j].field
    ensures IsSubsequence(FieldsOf(r), FieldOrder)
  {
    var r := PendingFor(form, stringify, FieldOrder);
    forall f
      ensures (exists i :: 0 <= i < |r| && r[i].field == f) <==> ValueOf(form, stringify, f).Some?
    {
      if ValueOf(form, stringify, f).Some? {
        assert FieldOrder[Position(f)] == f;
        assert Pending(f, ValueOf(form, stringify, f).value) in r;
      }
    }
    assert forall i, j :: 0 <= i < j < |r| ==> r[i].field != r[j].field by {
      FieldOrderDistinct();
      forall i, j | 0 <= i < j < |r|
        ensures r[i].field != r[j].field
      {
        SubsequenceDistinct(FieldsOf(r), FieldOrder, i, j);
      }
    }
    r
  }

  /** A subsequence of a list without repeats has no repeats. */
  lemma {:induction false} SubsequenceDistinct<T>(s: seq<T>, t: seq<T>, i: nat, j: nat)
    requires IsSubsequence(s, t) && i < j < |s|
    requires forall a, b :: 0 <= a < b < |t| ==> t[a] != t[b]
    ensures s[i] != s[j]
    decreases |t|
  {
    if s[0] == t[0] {
      if i == 0 {
        SubsequenceElements(s[1..], t[1..], j - 1);
      } else {
        SubsequenceDistinct(s[1..], t[1..], i - 1, j - 1);
      }
    } else {
      SubsequenceDistinct(s, t[1..], i, j);
    }
  }

  /** Each element of a subsequence occurs in the larger list. */
  lemma {:induction false} SubsequenceElements<T>(s: seq<T>, t: seq<T>, k: nat)
    requires IsSubsequence(s, t) && k < |s|
    ensures s[k] in t
    decreases |t|
  {
    if s[0] == t[0] {
      if k > 0 {
        SubsequenceElements(s[1..], t[1..], k - 1);
      }
    } else {
      SubsequenceElements(s, t[1..], k);
    }
  }

  /** A field with a value is saved with exactly that value. */
  lemma FieldSaved(form: SettingsForm, stringify: SocialLinks -> string, f: Field)
    requires ValueOf(form, stringify, f).Some?
    ensures Pending(f, ValueOf(form, stringify, f).value) in ToSave(form, stringify)
  {
    var r := ToSave(form, stringify);
    var i :| 0 <= i < |r| && r[i].field == f;
    assert r[i] == Pending(f, ValueOf(form, stringify, f).value);
  }

  /** Whatever the form, both notification switches are stored, as 'true' or 'false'. */
  lemma NotificationsAlwaysSaved(form: SettingsForm, stringify: SocialLinks -> string)
    ensures Pending(EmailNotifications, BoolText(form.emailNotifications)) in ToSave(form, stringify)
    ensures Pending(TelegramNotifications, BoolText(form.telegramNotifications)) in ToSave(form, stringify)
  {
    assert ValueOf(form, stringify, EmailNotifications) == Some(BoolText(form.emailNotifications));
    FieldSaved(form, stringify, EmailNotifications);
    assert ValueOf(form, stringify, TelegramNotifications) == Some(BoolText(form.telegramNotifications));
    FieldSaved(form, stringify, TelegramNotifications);
  }

  // ---------------------------------------------------------------- the rows

  /** `deleteMany` keeps a row when either credential column is set. */
  predicate Kept(s: Setting) {
    s.loginAdmin.Some? || s.passwordAdmin.Some?
  }

  /**
   * The row `prisma.setting.create` stores for the `k`-th pending setting; `newId` and `now`
   * are the database's id and clock, `isSecureDefault` the column's default.
   */
  function NewRow(p: Pending, id: string, isSecureDefault: bool, now: int): Setting {
    Setting(id, None, None, Some(p.telegramKey), Some(Name(p.field)), isSecureDefault, now)
  }

  /** The rows created for `ps`, in order. */
  function Created(ps: seq<Pending>, newId: nat -> string, isSecureDefault: bool, now: int): (r: seq<Setting>)
    ensures |r| == |ps|
    ensures forall k :: 0 <= k < |ps| ==> r[k] == NewRow(ps[k], newId(k), isSecureDefault, now)
  {
    if ps == [] then []
    else Created(ps[..|ps| - 1], newId, isSecureDefault, now) + [NewRow(ps[|ps| - 1], newId(|ps| - 1), isSecureDefault, now)]
  }

  const SaveSucceeded := "Настройки успешно сохранены"
  const SaveFailed := "Ошибка сохранения настроек"

  /** `for (const setting of settingsToSave) await prisma.setting.create(...)`. */
  method CreateAll(table: SettingTable, toSave: seq<Pending>, newId: nat -> string, isSecureDefault: bool, now: int)
    modifies table
    ensures table.rows == old(table.rows) + Created(toSave, newId, isSecureDefault, now)
  {
    for k := 0 to |toSave|
      invariant table.rows == old(table.rows) + Created(toSave[..k], newId, isSecureDefault, now)
    {
      assert toSave[..k + 1][..k] == toSave[..k];
      table.rows := table.rows + [NewRow(toSave[k], newId(k), isSecureDefault, now)];
    }
    assert toSave[..|toSave|] == toSave;
  }

  /**
   * `POST /api/admin/settings`. `form` is None when the body is not JSON (the handler's catch).
   * The admin rows survive; every other row is replaced by the form's rows.
   */
  method Post(table: SettingTable, form: Option<SettingsForm>, stringify: SocialLinks -> string,
              newId: nat -> string, isSecureDefault: bool, now: int) returns (r: Response<string>)
    modifies table
    ensures form.None? ==> r == Err(500, SaveFailed) && table.rows == old(table.rows)
    ensures form.Some? ==> r == Ok(200, SaveSucceeded)
    ensures form.Some? ==>
              table.rows == Filter(old(table.rows), Kept) + Created(ToSave(form.value, stringify), newId, isSecureDefault, now)
  {
    if form.None? {
      return Err(500, SaveFailed);
    }
    table.rows := Filter(table.rows, Kept);
    CreateAll(table, ToSave(form.value, stringify), newId, isSecureDefault, now);
    r := Ok(200, SaveSucceeded);
  }

  /** Rows with a login or a password, the administrators' among them, survive a save. */
  lemma AdminRowsSurvive(rows: seq<Setting>, k: nat)
    requires k < |rows| && (rows[k].loginAdmin.Some? || rows[k].passwordAdmin.Some?)
    ensures rows[k] in Filter(rows, Kept)
  {
  }

  // ---------------------------------------------------------------- GET

  /** A value of the settings object: the defaults' texts, switches and links, or parsed JSON. */
  datatype Value<V> = Text(s: string) | Flag(b: bool) | Links(links: SocialLinks) | Parsed(v: V)

  /** `defaultSettings`. */
  function Defaults<V>(): (r: map<string, Value<V>>)
    ensures forall f :: Name(f) in r
    ensures "emailNotifications" in r && r["emailNotifications"] == Flag(true)
    ensures "telegramNotifications" in r && r["telegramNotifications"] == Flag(false)
  {
    map[
      "phone" := Text(""),
      "email" := Text(""),
      "address" := Text(""),
      "socialLinks" := Links(SocialLinks("", "", "", "")),
      "siteTitle" := Text("Acsess Admin"),
      "siteDescription" := Text("Система управления интернет-магазином"),
      "keywords" := Text(""),
      "metaDescription" := Text(""),
      "logoUrl" := Text(""),
      "bannerUrl" := Text(""),
      "welcomeText" := Text(""),
      "aboutText" := Text(""),
      "emailNotifications" := Flag(true),
      "telegramNotifications" := Flag(false),
      "telegramBotToken" := Text(""),
      "telegramChatId" := Text(""),
      "notificationEmail" := Text("")]
  }

  /** `setting.login_admin && setting.password_admin`: both set and non-empty. */
  predicate IsAdminRow(s: Setting) {
    s.loginAdmin.Some? && s.loginAdmin.value != "" && s.passwordAdmin.Some? && s.passwordAdmin.value != ""
  }

  /** A row the reduce copies into the object: not an admin row, a description that starts with '{' and parses. */
  predicate Contributes<V>(s: Setting, parse: string -> Option<V>) {
    !IsAdminRow(s) && s.description.Some? && StartsWith(s.description.value, "{") && parse(s.description.value).Some?
  }

  /**
   * The reduce over the rows: each contributing row sets the entry named by its description to
   * the parsed description. `parse` is `JSON.parse`, None where it throws.
   */
  function Overrides<V>(rows: seq<Setting>, parse: string -> Option<V>): (r: map<string, V>)
    ensures forall k :: k in r <==> exists i :: 0 <= i < |rows| && Contributes(rows[i], parse) && rows[i].description.value == k
    ensures forall k :: k in r ==> StartsWith(k, "{") && parse(k) == Some(r[k])
  {
    if rows == [] then map[]
    else
      var init := rows[..|rows| - 1];
      var s := rows[|rows| - 1];
      var acc := Overrides(init, parse);
      assert forall i :: 0 <= i < |init| ==> init[i] == rows[i];
      if Contributes(s, parse) then acc[s.description.value := parse(s.description.value).value] else acc
  }

  /** `GET /api/admin/settings`. */
  function Get<V>(rows: seq<Setting>, parse: string -> Option<V>): map<string, Value<V>> {
    Merged(Overrides(rows, parse))
  }

  /** `{ ...defaultSettings, ...settingsObject }`: the parsed entries win over the defaults. */
  function Merged<V>(over: map<string, V>): (r: map<string, Value<V>>)
    ensures forall k :: k in r <==> k in Defaults<V>() || k in over
    ensures forall k :: k in over ==> r[k] == Parsed(over[k])
    ensures forall k :: k in Defaults<V>() && k !in over ==> r[k] == Defaults<V>()[k]
  {
    Defaults() + map k | k in over :: Parsed(over[k])
  }

  /** No default key starts with '{', so GET always returns every default unchanged. */
  lemma GetKeepsDefaults<V>(rows: seq<Setting>, parse: string -> Option<V>)
    ensures forall k :: k in Defaults<V>() ==> k in Get(rows, parse) && Get(rows, parse)[k] == Defaults<V>()[k]
  {
    forall k | k in Defaults<V>()
      ensures !StartsWith(k, "{")
    {
      assert k[0] != '{';
    }
  }

  /** Every contributing row of `rows` also in `others`: every key of the first is a key of the second. */
  lemma OverrideKeysIncluded<V>(rows: seq<Setting>, others: seq<Setting>, parse: string -> Option<V>)
    requires forall i :: 0 <= i < |rows| && Contributes(rows[i], parse) ==> rows[i] in others
    ensures forall k :: k in Overrides(rows, parse) ==> k in Overrides(others, parse)
  {
    forall k | k in Overrides(rows, parse)
      ensures k in Overrides(others, parse)
    {
      var i :| 0 <= i < |rows| && Contributes(rows[i], parse) && rows[i].description.value == k;
      var j :| 0 <= j < |others| && others[j] == rows[i];
    }
  }

  /** Two row lists with the same contributing rows give the same overrides. */
  lemma SameContributorsSameOverrides<V>(rows: seq<Setting>, others: seq<Setting>, parse: string -> Option<V>)
    requires forall i :: 0 <= i < |rows| && Contributes(rows[i], parse) ==> rows[i] in others
    requires forall j :: 0 <= j < |others| && Contributes(others[j], parse) ==> others[j] in rows
    ensures Overrides(rows, parse) == Overrides(others, parse)
  {
    OverrideKeysIncluded(rows, others, parse);
    OverrideKeysIncluded(others, rows, parse);
    SameKeysSameMap(Overrides(rows, parse), Overrides(others, parse), parse);
  }

  /** Two override maps with the same keys are equal: each value is what its key parses to. */
  lemma SameKeysSameMap<V>(a: map<string, V>, b: map<string, V>, parse: string -> Option<V>)
    requires forall k :: k in a ==> parse(k) == Some(a[k])
    requires forall k :: k in b ==> parse(k) == Some(b[k])
    requires a.Keys == b.Keys
    ensures a == b
  {
    forall k | k in a
      ensures a[k] == b[k]
    {
      assert parse(k) == Some(a[k]) && parse(k) == Some(b[k]);
    }
  }

  /** Admin rows never reach the GET output: dropping them changes nothing. */
  lemma GetSkipsAdminRows<V>(rows: seq<Setting>, parse: string -> Option<V>)
    ensures Get(rows, parse) == Get(Filter(rows, (s: Setting) => !IsAdminRow(s)), parse)
  {
    SameContributorsSameOverrides(rows, Filter(rows, (s: Setting) => !IsAdminRow(s)), parse);
  }

  /** Rows whose description does not start with '{' add nothing to the overrides. */
  lemma {:induction false} OverridesIgnorePlainRows<V>(rows: seq<Setting>, extra: seq<Setting>, parse: string -> Option<V>)
    requires forall i :: 0 <= i < |extra| ==> extra[i].description.Some? && !StartsWith(extra[i].description.value, "{")
    ensures Overrides(rows + extra, parse) == Overrides(rows, parse)
  {
    if extra == [] {
      assert rows + extra == rows;
    } else {
      var init := extra[..|extra| - 1];
      var all := rows + extra;
      assert all[..|all| - 1] == rows + init;
      assert all[|all| - 1] == extra[|extra| - 1];
      assert !Contributes(all[|all| - 1], parse);
      OverridesIgnorePlainRows(rows, init, parse);
    }
  }

  /** The rows a save writes never change what GET returns: the settings do not round-trip. */
  lemma SavedRowsInvisibleToGet<V>(rows: seq<Setting>, form: SettingsForm, stringify: SocialLinks -> string,
                                   newId: nat -> string, isSecureDefault: bool, now: int, parse: string -> Option<V>)
    ensures var kept := Filter(rows, Kept);
            Get(kept + Created(ToSave(form, stringify), newId, isSecureDefault, now), parse) == Get(kept, parse)
  {
    var ps := ToSave(form, stringify);
    var created := Created(ps, newId, isSecureDefault, now);
    forall i | 0 <= i < |created|
      ensures created[i].description.Some? && !StartsWith(created[i].description.value, "{")
    {
      var name := Name(ps[i].field);
      NamesAreNotJson(ps[i].field);
      assert created[i].description == Some(name);
      assert name[..1][0] == name[0];
    }
    OverridesIgnorePlainRows(Filter(rows, Kept), created, parse);
  }
}
