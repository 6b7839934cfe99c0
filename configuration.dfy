/**
 * The settings the server reads from its `Config` class. That class lives in
 * `pks/config.py`, which is not part of this model: every field is a constant
 * parameter here, and the model states what it needs of them where it needs it.
 */
module Configuration {

  datatype Config = Config(
    /** `acceptable_port_range[0]` and `acceptable_port_range[-1]` of a step-1 `range`. */
    firstPort: int,
    lastPort: int,
    /** `ports_blacklist`: ports a knock sequence must never use. */
    portsBlacklist: set<int>,
    /** `sequences_length`: the default number of ports in a generated sequence. */
    sequencesLength: nat,
    /** `telegram_user_whitelist` and `telegram_user_blacklist`, compared with `str(user_id)`. */
    userWhitelist: seq<string>,
    userBlacklist: seq<string>,
    /** `telegram_user_admin_list`: Telegram user ids, which are integers. */
    adminList: seq<int>,
    /** `use_open_sequence` and `open_sequence`: a fixed sequence for testing. */
    useOpenSequence: bool,
    openSequence: seq<int>,
    /** `target_port`: the port the knock opens. */
    targetPort: int,
    /** `telegram_timeout`: updates older than this many seconds are ignored. */
    telegramTimeout: int,
    /** `knockd_config_file`: where the knock daemon's configuration is written. */
    knockdConfigFile: string,
    /** `network_interface`: handed to the template, which never uses it. */
    networkInterface: string)
}
