# weback-unofficial in Dafny

A model of the core of `weback_unofficial`, a Python client for the WeBack cloud that controls
robot vacuums and thermostats, with proofs of what its code promises.

- `wrappers.dfy` (`Wrappers`): `Option`, `Result`, `Outcome` and `Failure`, one constructor per
  kind of exception the code raises (`raise_invalid_value`, a plain `Exception`, `TypeError`,
  `AttributeError`, `KeyError`, and failures inside the network or AWS client).
- `strings.dfy` (`Strings`): Python's `str.split(',')` and `','.join(...)`; `Split` proves in its
  own contract that it yields one piece more than there are separators, that no piece holds a
  separator and that joining the pieces gives the string back; `SplitJoin` proves the other
  direction.
- `device.dfy` (`Device`): the part of `BaseDevice` the devices use. `BaseDevice` is imported
  from `client.py` but is not defined in it; here it is a class holding the shadow (a map in which an absent key
  reads as `None`) and the log of published `(attribute, value)` messages. `publish_single`
  appends to the log, and `raise_invalid_value` is the failure `InvalidValue(allowed)`, after
  which nothing runs.
- `vacuum.py` → `vacuum.dfy` (`Vacuum`): the mode constants and sets, the `is_*` predicates,
  the `state` priority chain, `is_available`, and the commands as methods on `CleanRobot`.
- `thermostat.py` → `thermostat.dfy` (`Thermostat`): the temperature conversions, `is_heating`,
  `is_available`, the weekly schedule (`format_auto_settings`, `autosettings`), and the
  `setMode`/`setTemp` commands.
- `client.py` → `client.dfy` (`Client`): argument resolution and request construction in
  `auth`, `is_renewal_required`, `make_session_from_cognito`, and the `get_session` cache as a
  `WebackApi` method. The method is proved equal to `GetSessionSpec`, a function on a snapshot of
  the object's fields. The lemmas about cache hits, renewal, partial failure and repeated calls
  are stated on that function. MD5, the HTTPS login and the Cognito exchange are fields of a
  `Backend` value, and the current time is the parameter `now`.

The devices are classes that hold a `BaseDevice` (composition stands in for inheritance), so
each command method `modifies device`published` and nothing else.

The code as written, and so the model:
- `auth` returns the login endpoint's answer as it is and never inspects `Request_Result`.
- No country code is prefixed to the login.
- Missing credentials raise a plain `Exception` with the code's message.
- A failed renewal can leave a new `aws_identity_id`, or a new `expiration_time`, recorded
  beside the old session.

## Model

| member | source | states |
|---|---|---|
| `Vacuum.ModeGroups` | weback_unofficial/vacuum.py:9-30 | The docked set is the charging set plus Hibernating. The cleaning, docked, {BackCharging}, {Standby} and {Malfunction} groups are pairwise disjoint. Pause is not a fan speed and None is not a mop level |
| `Vacuum.CleanRobot.constructor` | weback_unofficial/vacuum.py:33-34 | The robot wraps the given device |
| `Vacuum.CleanRobot.CurrentMode` | weback_unofficial/vacuum.py:71-73 | `current_mode` is present exactly when the shadow holds `working_status`, and is then that raw value |
| `Vacuum.CleanRobot.IsCleaning` | weback_unofficial/vacuum.py:79-81 | True exactly when the raw mode is a string among AutoClean, EdgeClean, SpotClean and RoomClean |
| `Vacuum.CleanRobot.IsDocked` | weback_unofficial/vacuum.py:83-85 | True exactly when the raw mode is a charging mode or Hibernating |
| `Vacuum.CleanRobot.IsPaused` | weback_unofficial/vacuum.py:87-89 | True exactly when the raw mode is Standby |
| `Vacuum.CleanRobot.IsReturning` | weback_unofficial/vacuum.py:96-98 | True exactly when the raw mode is BackCharging |
| `Vacuum.CleanRobot.IsError` | weback_unofficial/vacuum.py:100-102 | True exactly when the raw mode is Malfunction |
| `Vacuum.CleanRobot.IsIdle` | weback_unofficial/vacuum.py:91-94 | `is_idle` holds exactly when the mode is not a string in any of the five groups; it holds when the mode is absent |
| `Vacuum.CleanRobot.State` | weback_unofficial/vacuum.py:104-118 | `state` is one of seven values. It is `unknown` exactly when `working_status` is absent. It is `error`, `cleaning`, `docked`, `returning` or `paused` exactly when the matching predicate holds. It is `idle` exactly when the mode is present and `is_idle` holds |
| `Vacuum.StateOfMode` | weback_unofficial/vacuum.py:104-118 | For each raw mode string: Malfunction gives error, the cleaning modes give cleaning, the docked modes give docked, BackCharging gives returning, Standby gives paused, and any other string gives idle |
| `Vacuum.CleanRobot.IsAvailable` | weback_unofficial/vacuum.py:59-61 | `is_available` is true for every shadow, including `connected == 'false'` |
| `Vacuum.CleanRobot.TurnOn` | weback_unofficial/vacuum.py:36-37 | Publishes exactly one message, `working_status = AutoClean` |
| `Vacuum.CleanRobot.TurnOff` | weback_unofficial/vacuum.py:39-40 | Publishes exactly one message, `working_status = BackCharging` |
| `Vacuum.CleanRobot.ReturnHome` | weback_unofficial/vacuum.py:42-43 | Publishes the same single message as `turn_off` |
| `Vacuum.CleanRobot.Stop` | weback_unofficial/vacuum.py:45-46 | Publishes exactly one message, `working_status = Standby` |
| `Vacuum.CleanRobot.SetFan` | weback_unofficial/vacuum.py:48-52 | Succeeds exactly for Normal and Strong and then publishes exactly `fan_status = mode`. Any other argument fails with the allowed set and publishes nothing |
| `Vacuum.CleanRobot.SetMop` | weback_unofficial/vacuum.py:54-57 | Succeeds exactly for Low, Default and High and then publishes exactly `water_level = mode`. Any other argument fails with the allowed set and publishes nothing |
| `Thermostat.Thermostat.constructor` | weback_unofficial/thermostat.py:23-24 | The thermostat wraps the given device |
| `Thermostat.Thermostat.SetMode` | weback_unofficial/thermostat.py:26-29 | Succeeds exactly for auto and hand and then publishes exactly `workmode = mode`. Any other argument fails with the allowed set and publishes nothing |
| `Thermostat.Thermostat.SetTemp` | weback_unofficial/thermostat.py:31-33 | Publishes exactly two messages, in order: `workmode = hand`, then `set_tem = 2 * temp` |
| `Thermostat.EncodeTemp` | weback_unofficial/thermostat.py:33 | The published set-point halved gives the temperature back |
| `Thermostat.Thermostat.IsAvailable` | weback_unofficial/thermostat.py:36-38 | `is_available` is true for every shadow |
| `Thermostat.Thermostat.Temperature` | weback_unofficial/thermostat.py:44-46 | Succeeds exactly when `air_tem` is a number. The result times ten is the raw value. Otherwise the division raises a type error |
| `Thermostat.Thermostat.GoalTemperature` | weback_unofficial/thermostat.py:48-50 | Succeeds exactly when `set_tem` is a number. Encoding the result gives the raw value back. Otherwise the division raises a type error |
| `Thermostat.GoalTemperatureRoundTrip` | weback_unofficial/thermostat.py:9-10 | When the shadow holds the set-point that `setTemp(t)` publishes, `goal_temperature` is `t` |
| `Thermostat.ConversionExamples` | weback_unofficial/thermostat.py:12-13 | Raw 250 reads as 25.0 and raw 235 as 23.5. A set-point of 50 reads as 25.0, and 25 encodes as 50 |
| `Thermostat.Thermostat.IsHeating` | weback_unofficial/thermostat.py:52-54 | True exactly when `working_status` is present and equals `on` |
| `Thermostat.Thermostat.FormatAutoSettings` | weback_unofficial/thermostat.py:79-82 | Succeeds exactly when the day's key holds a string. The pieces hold no comma, number one more than the commas, and join back with commas to the day string. A missing key or a number raises an attribute error |
| `Thermostat.Thermostat.CollectSchedules` | weback_unofficial/thermostat.py:56-66 | Succeeds exactly when every listed day succeeds. The keys are the listed day names, and each day maps to the split of its own shadow key |
| `Thermostat.Thermostat.AutoSettings` | weback_unofficial/thermostat.py:56-66 | Succeeds exactly when the seven shadow keys Mon, Tues, Wed, Thur, Fri, Sat and Sun hold strings. The keys are exactly Mon to Sun. Each maps to the split of its shadow key: Tue reads Tues, Thu reads Thur, the rest their own name |
| `Thermostat.WeekdaysTable` | weback_unofficial/thermostat.py:58-66 | The day table names seven distinct days. Each day is read from its shadow key, in the source's order |
| `Thermostat.ScheduleExample` | weback_unofficial/thermostat.py:68-82 | The example day string in the source's comment splits into its six actions, in order |
| `Thermostat.ExampleActionsJoin` | weback_unofficial/thermostat.py:70-78 | The six example actions hold no comma, and joined with commas they give the example day string |
| `Thermostat.TwoActionExample` | weback_unofficial/thermostat.py:79-82 | A two-action day string splits into its two actions |
| `Strings.Split` | weback_unofficial/thermostat.py:81 | The pieces number one more than the separators and hold no separator. Joined with the separator they give the string back |
| `Strings.SplitWithoutSeparator` | weback_unofficial/thermostat.py:81 | A string without the separator splits into itself alone |
| `Strings.SplitAfterPiece` | weback_unofficial/thermostat.py:81 | Splitting `a + sep + b`, where `a` has no separator, gives `a` followed by the pieces of `b` |
| `Strings.SplitJoin` | weback_unofficial/thermostat.py:81 | Split undoes join for any non-empty list of separator-free pieces |
| `Client.BuildLoginRequest` | weback_unofficial/client.py:27-43 | An explicit login or password wins, and the stored value is used only when the argument is None. A missing login fails first and then a missing password, each with the code's message. The request carries `android_3.9.3`, the resolved login, and the MD5 hex digest of the resolved password |
| `Client.Auth` | weback_unofficial/client.py:27-47 | Fails with the credential failure when a login or password is missing, and nothing is posted. Otherwise it returns the endpoint's answer to the built request, unchecked |
| `Client.IsRenewalRequired` | weback_unofficial/client.py:87-88 | Succeeds exactly when `expiration_time` is set, and is then true exactly when it lies before `now`. An unset time raises |
| `Client.MakeSessionFromCognito` | weback_unofficial/client.py:59-66 | Succeeds exactly when `Credentials` and its three keys are present. The session carries those keys and the given region |
| `Client.WebackApi.constructor` | weback_unofficial/client.py:21-25 | Keeps the login, password and session. The session's expiration is dropped, so `expiration_time` and `aws_identity_id` start unset |
| `Client.Renew` | weback_unofficial/client.py:93-103 | Renewal never changes the stored credentials. A returned session is the one left cached, a failed renewal keeps the old cached session, and a failed login changes nothing |
| `Client.GetSessionSpec` | weback_unofficial/client.py:90-103 | `get_session` never changes the stored credentials, and a returned session is the one left cached. A session other than the cached one is returned only when the cached one has expired |
| `Client.WebackApi.GetSession` | weback_unofficial/client.py:90-103 | The returned value and the new fields are exactly those of `GetSessionSpec` on the old fields |
| `Client.CachedSessionReused` | weback_unofficial/client.py:90-92 | A cached session that has not expired is returned as it is, and no field changes |
| `Client.UnsetExpirationFails` | weback_unofficial/client.py:87-92 | A cached session with an unset expiration time makes `get_session` raise, and no field changes |
| `Client.ConstructorSessionFails` | weback_unofficial/client.py:21-25 | A session given to the constructor makes the first `get_session` raise |
| `Client.ExpiredSessionRenewed` | weback_unofficial/client.py:90-93 | With no cached session, or an expired one, `get_session` performs the full renewal |
| `Client.ReturnedSessionIsStored` | weback_unofficial/client.py:90-103 | On every path, a returned session is the one left in `aws_session`, and the stored credentials never change |
| `Client.RenewalRecords` | weback_unofficial/client.py:93-103 | A successful renewal sets `aws_identity_id` to the login answer's `Identity_Id` and `expiration_time` to the Cognito `Expiration`. It caches the session built from the Cognito credentials and the login's `Region_Info`, and changes nothing else |
| `Client.MissingCredentialsChangeNothing` | weback_unofficial/client.py:27-37 | Missing credentials fail the renewal and record nothing |
| `Client.ExchangeFailureKeepsIdentity` | weback_unofficial/client.py:93-99 | A failed Cognito exchange leaves the new identity id recorded. The session and the expiration time keep their old values |
| `Client.ConsecutiveCallsShareSession` | weback_unofficial/client.py:90-103 | When a first `get_session` leaves an unexpired session, a second one at the same time returns the same session and changes nothing, whatever the backend would answer |

## Left out

- Network and foreign calls: `requests.post`, the JSON decoding of its answer, `auth_cognito` and the MD5 digest are the `Backend` functions `post`, `cognito` and `md5hex`. The model states what they are called with, never what they compute.
- `device_list` (Lambda invocation and JSON decoding) is not modelled; it has no logic beyond the remote call.
- `datetime.now` and time zones: the current time is the integer parameter `now`, and expiration times are integers in the same scale.
- `WebackApi.GetSession`: the session returned on a cache hit is equal as a value to the cached one; Python object identity is not modelled.
- `Thermostat.Thermostat.Temperature` and `Thermostat.Thermostat.GoalTemperature`: Python `/` gives a float. The model divides exact `real` numbers, so rounding is not modelled.
- `Thermostat.Thermostat.SetTemp`: the source annotates `temp` as `str`, where `* 2` would repeat the string. The model takes a number, as the comment beside `TEMP_MULTIPLIER` describes.
- The vacuum's `clean_tine`, `battery_level` and `error`, and the thermostat's `mode`, are plain shadow lookups with no logic. They are not modelled; `CleanRobot.CurrentMode` models `current_mode`.
- The command methods return nothing. In the source, `turn_on`, `turn_off`, `return_home` and `stop` return the transport's acknowledgement of the publish.
- `BaseDevice` internals (shadow fetch, `update`, description caching) are not part of this model. A device is built around a shadow already at hand.
- Shadow values are strings or numbers. A JSON `null` stored under a key is not distinguished from an absent key.
- `InvalidValue` carries the allowed set but not the text of the exception message.
