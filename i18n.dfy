/**
 * The bridge's two-language message table and its lookup (bridge/i18n.py).
 * Every message exists in Ukrainian ("uk", the default) and English ("en").
 */
module I18n {
  import opened PyValue

  const DefaultLang := "uk"

  /** Message key to language code to text: the shape of `TEXTS`. */
  type Table = map<string, map<string, string>>

  /** One message in both languages. */
  datatype Entry = Entry(uk: string, en: string)

  /** The messages of `TEXTS` (bridge/i18n.py:11-107), key by key. */
  const Entries: map<string, Entry> := map[
    "app_title" := Entry("TradeTrack Sync", "TradeTrack Sync"),
    "app_subtitle" := Entry("Клієнт синхронізації MT5 з TradeTrack. Дозволяє передавати угоди з MetaTrader 5 у ваш журнал на сайті за запитом (кнопка «Отримати угоди»).", "MT5 sync client for TradeTrack. Sends your MT5 trades to the journal on the site when you click «Get trades»."),
    "app_instruction" := Entry("Як підключити:\n1) Запустіть цю програму.\n2) На сайті TradeTrack: рахунок → MetaTrader 5 → «Клієнт синхронізації (bridge)».\n3) Введіть логін MT5, пароль і сервер → натисніть «Підключити».\n4) Після підключення на сайті натискайте «Отримати угоди», щоб синхронізувати угоди з MT5.", "How to connect:\n1) Run this program.\n2) On TradeTrack site: account → MetaTrader 5 → «Sync client (bridge)».\n3) Enter MT5 login, password and server → click «Connect».\n4) After connecting, click «Get trades» on the site to sync deals from MT5."),
    "label_status" := Entry("Статус:", "Status:"),
    "label_events" := Entry("Журнал подій", "Event log"),
    "label_language" := Entry("Мова:", "Language:"),
    "lang_uk" := Entry("Українська", "Ukrainian"),
    "lang_en" := Entry("English", "English"),
    "status_waiting" := Entry("Очікую підключення з сайту. Виконайте кроки інструкції вище в браузері.", "Waiting for connection from the site. Follow the steps above in your browser."),
    "status_connected" := Entry("Підключено. Очікую натискання «Отримати угоди» на сайті.", "Connected. Waiting for «Get trades» on the site."),
    "status_syncing" := Entry("Синхронізація угод…", "Syncing deals…"),
    "status_mt5_error" := Entry("Помилка підключення до MT5. Перевірте логін, пароль і сервер.", "MT5 connection error. Check login, password and server."),
    "log_started" := Entry("Програма запущена. Очікую підключення з браузера.", "Program started. Waiting for connection from browser."),
    "log_enter_credentials" := Entry("На сайті введіть логін MT5, пароль і сервер та натисніть «Підключити».", "On the site enter MT5 login, password and server, then click «Connect»."),
    "log_config_from_browser" := Entry("Конфіг отримано з браузера.", "Config received from browser."),
    "log_config_saved" := Entry("Конфіг збережено.", "Config saved."),
    "log_server_notified" := Entry("Сервер TradeTrack повідомлено про підключення.", "TradeTrack server notified of connection."),
    "log_server_notify_failed" := Entry("Не вдалося повідомити сервер TradeTrack (перевірте мережу або URL).", "Could not notify TradeTrack server (check network or URL)."),
    "log_sync_requested" := Entry("Отримано запит «Отримати угоди» з сайту.", "Received «Get trades» request from the site."),
    "log_deals_sent" := Entry("Угоди успішно відправлено на TradeTrack.", "Deals sent to TradeTrack successfully."),
    "log_sync_done" := Entry("Синхронізація завершена.", "Sync complete."),
    "log_error" := Entry("Помилка:", "Error:"),
    "msg_no_new_deals" := Entry("Немає нових угод.", "No new deals."),
    "msg_synced_n_deals" := Entry("Синхронізовано {} угод.", "Synced {} deals."),
    "msg_send_deals_failed" := Entry("Не вдалося відправити угоди на сервер.", "Failed to send deals to the server."),
    "msg_mt5_connect_failed" := Entry("Помилка підключення MT5: {}", "MT5 connection failed: {}"),
    "msg_mt5_hint" := Entry(" (перевірте «Автоторгівля» в MT5 та інвестор-пароль)", " (check «Allow automated trading» in MT5 and investor password)"),
    "lang_select_title" := Entry("Оберіть мову", "Select language"),
    "btn_open_site" := Entry("Відкрити сайт TradeTrack", "Open TradeTrack website"),
    "btn_contact" := Entry("Контакт", "Contact"),
    "api_description" := Entry("Клієнт TradeTrack для підключення MT5 до акаунту на сайті. Синхронізація тільки по запиту з фронту.", "TradeTrack client for connecting MT5 to your site account. Sync only on request from the frontend."),
    "api_status_connected" := Entry("Підключено (конфіг збережено)", "Connected (config saved)"),
    "api_status_not_connected" := Entry("Не підключено — надішліть конфіг з браузера", "Not connected — send config from browser"),
    "api_config_endpoint" := Entry("POST /config — підключення з браузера", "POST /config — connect from browser"),
    "api_sync_endpoint" := Entry("GET|POST /sync-request — отримати угоди (кнопка «Отримати угоди» на сайті)", "GET|POST /sync-request — get deals (button «Get trades» on site)"),
    "tab_main" := Entry("Головна", "Main"),
    "tab_settings" := Entry("Налаштування", "Settings"),
    "settings_restart_hint" := Entry("Зміна мови набуде чинності після перезапуску програми.", "Language change will take effect after you restart the program.")
  ]

  /** `TEXTS` itself. */
  const Texts: Table := TableOf(Entries)

  /** The table shape of a set of entries: each key maps "uk" and "en" to its two texts. */
  function TableOf(entries: map<string, Entry>): Table {
    map k | k in entries :: map["uk" := entries[k].uk, "en" := entries[k].en]
  }

  /** `lang or "uk"`, with anything other than "uk" and "en" read as "uk". */
  function ResolveLang(lang: Json): (l: string)
    ensures l == "uk" || l == "en"
    ensures l == "en" <==> lang == JStr("en")
  {
    var l := Or(lang, JStr(DefaultLang));
    if l == JStr("en") then "en" else DefaultLang
  }

  /**
   * `get_text(key, lang)` over a table: the entry in the resolved language,
   * else the Ukrainian entry, else the key itself.
   */
  function GetTextIn(table: Table, key: string, lang: Json): (r: string)
    ensures key !in table ==> r == key
    ensures key in table && ResolveLang(lang) in table[key] ==> r == table[key][ResolveLang(lang)]
    ensures key in table && ResolveLang(lang) !in table[key] && DefaultLang in table[key] ==> r == table[key][DefaultLang]
    ensures key in table && ResolveLang(lang) !in table[key] && DefaultLang !in table[key] ==> r == key
  {
    var entry := if key in table then table[key] else map[];
    var l := ResolveLang(lang);
    if l in entry then entry[l] else if DefaultLang in entry then entry[DefaultLang] else key
  }

  /** A table in which every message has both languages. */
  ghost predicate Complete(table: Table) {
    forall k :: k in table ==> DefaultLang in table[k] && "en" in table[k]
  }

  /** Every message key the bridge's modules pass to `get_text` (bridge/main.py, bridge/config_server.py, bridge/gui.py). */
  const LookedUpKeys: set<string> := {
    "app_title", "app_subtitle", "app_instruction", "label_status", "label_events", "label_language",
    "lang_uk", "lang_en", "status_waiting", "status_connected", "status_syncing", "status_mt5_error",
    "log_started", "log_enter_credentials", "log_config_from_browser", "log_config_saved",
    "log_server_notified", "log_server_notify_failed", "log_sync_requested", "log_deals_sent", "log_sync_done", "log_error",
    "msg_no_new_deals", "msg_synced_n_deals", "msg_send_deals_failed", "msg_mt5_connect_failed", "msg_mt5_hint",
    "btn_open_site", "tab_main", "tab_settings", "settings_restart_hint",
    "api_description", "api_status_connected", "api_status_not_connected", "api_config_endpoint", "api_sync_endpoint"
  }

  /** Every key the bridge looks up is a key of the table. */
  lemma LookedUpKeysPresent()
    ensures LookedUpKeys <= Entries.Keys
  {
  }

  /** No message of the table is empty in either language. */
  lemma EntriesNonEmpty()
    ensures forall k :: k in Entries ==> Entries[k].uk != [] && Entries[k].en != []
  {
  }

  /** A table built from entries has exactly their keys, both languages for every key, and each entry's texts. */
  lemma TableOfSpec(entries: map<string, Entry>)
    ensures TableOf(entries).Keys == entries.Keys && Complete(TableOf(entries))
    ensures forall k :: k in entries ==> TableOf(entries)[k][DefaultLang] == entries[k].uk && TableOf(entries)[k]["en"] == entries[k].en
  {
  }

  /**
   * Every message of `TEXTS` has a Ukrainian and an English text, and every
   * key the bridge looks up is there, so no lookup of the bridge falls back
   * to showing the bare key.
   */
  lemma TextsComplete()
    ensures Complete(Texts) && LookedUpKeys <= Texts.Keys
  {
    LookedUpKeysPresent();
    TableOfSpec(Entries);
  }

  /** No message of `TEXTS` is empty in either language. */
  lemma TextsNonEmpty()
    ensures forall k :: k in Texts ==> Texts[k][DefaultLang] != [] && Texts[k]["en"] != []
  {
    EntriesNonEmpty();
    TableOfSpec(Entries);
  }

  /**
   * In a complete table the lookup of a known message never falls back:
   * English when asked for "en", Ukrainian for any other language or none.
   */
  lemma GetTextKnown(table: Table, key: string, lang: Json)
    requires Complete(table) && key in table
    ensures lang == JStr("en") ==> GetTextIn(table, key, lang) == table[key]["en"]
    ensures lang != JStr("en") ==> GetTextIn(table, key, lang) == table[key][DefaultLang]
  {
  }
}
