# DeepSeekChat server core in Dafny

A model of the logic inside the Flask backend `DeepSeekChat/obj/app/server.py`.
The backend keeps chat conversations in one SQLite table, `chats`. It relays
each conversation to the DeepSeek completion endpoint and stores the reply.
It also turns an uploaded text file into a fenced code block.

Modules, in dependency order:

- `Wrappers`: `Option`.
- `Json`: JSON values (numbers kept as their literal text), the assistant
  message and one-choice envelope shapes, and `FirstChoiceMessage`. That
  function is `response['choices'][0]['message']`, giving None exactly where
  Python would raise.
- `Http`: a handler's answer. It is a 200 body, a status with an
  `{"error": ...}` text, or the catch-all 500.
- `Text`: ASCII `lower()`, last/first index of a character, decimal printing
  of naturals and its inverse.
- `Upload`: `allowed_file`, the `split('.')[-1]` fence tag, the code fence and
  the decision of `upload_file`.
- `Chats`: the `chats` table as the class `ChatTable`, whose field
  `rows: map<string, Chat>` is keyed by the primary key. It has `save_chat`,
  `load_chat`, `load_all_chats`, `new_chat`, `get_chat` and the decision logic
  of `handle_chat`.

Inputs the program takes from the outside world are parameters:

- `NewChat` takes the fresh uuid as `freshId`, with the precondition that it is
  not a stored id.
- `HandleChat` takes the provider's answer as a `ProviderOutcome`. It is a
  `RequestException` text, a body that is not JSON, or a JSON body. The method
  also returns the request it would send (`sent`), or None when the endpoint is
  not called.
- `UploadFile` takes the name `secure_filename` produced and the text read back
  from disk. That text is None when saving, UTF-8 decoding or removal raised.

Three behaviours of `server.py` that are easy to miss:

- An empty `chat_id` counts as missing, the same as an absent one (server.py:122).
- A body that is not JSON, or that has no `choices[0].message`, raises outside
  the inner `try`. It gives the catch-all 500 with Python's exception text, not
  an "API Error" (server.py:164-165, 173-175).
- A `messages` field that is not a list makes `existing_messages + messages`
  raise (server.py:137). That is a 500 after the lookup and before any
  provider call.

## Model

| member | source | states |
|---|---|---|
| `Text.Lower` | DeepSeekChat/obj/app/server.py:54 | `lower()` keeps the length and turns each upper-case ASCII letter into its lower-case partner. Every other character is kept, and no upper-case letter remains |
| `Text.LowerOfLowerCase` | DeepSeekChat/obj/app/server.py:54 | text with no upper-case letter is its own lower case |
| `Text.LastIndexOf` | DeepSeekChat/obj/app/server.py:53-54 | the result is absent exactly when the character does not occur; otherwise it is an occurrence with none after it (what `rsplit(c, 1)` splits at) |
| `Text.NatToString` | DeepSeekChat/obj/app/server.py:89 | the decimal text of a count is non-empty, all digits, and has no leading zero |
| `Text.ParseNatToString` | DeepSeekChat/obj/app/server.py:89 | reading the printed count back gives the count |
| `Text.NatToStringInjective` | DeepSeekChat/obj/app/server.py:89 | distinct counts print differently |
| `Upload.Extension` | DeepSeekChat/obj/app/server.py:53-54 | there is an extension exactly when the name has a dot; the name is then prefix + "." + extension with no dot in the extension |
| `Upload.ExtensionOfSplit` | DeepSeekChat/obj/app/server.py:54 | any split of a name at a dot with no dot after it is the one `rsplit('.', 1)` finds |
| `Upload.AllowedFile` | DeepSeekChat/obj/app/server.py:52-54 | `allowed_file(f)` holds iff `f` splits at its last dot into an extension whose lower-case form is `txt`, `pdf` or `docx` |
| `Upload.AllowedFileIgnoresCaseOf` | DeepSeekChat/obj/app/server.py:54 | for any prefix, two dot-free extensions with the same lower case are both accepted or both refused |
| `Upload.AllowedFileIgnoresCase` | DeepSeekChat/obj/app/server.py:52-54 | `a.TXT` and `report.Docx` are accepted |
| `Upload.AllowedFileUsesLastDot` | DeepSeekChat/obj/app/server.py:52-54 | `x.tar.txt` is accepted and `a.txt.exe` refused |
| `Upload.AllowedFileNeedsExtension` | DeepSeekChat/obj/app/server.py:52-54 | `txt` (no dot) and `a.` (empty extension) are refused |
| `Upload.Fence` | DeepSeekChat/obj/app/server.py:200 | the reply text is three backticks, the tag, a line break, the content, a line break and three backticks, at those exact positions |
| `Upload.FenceTag` | DeepSeekChat/obj/app/server.py:200 | the tag is the longest dot-free suffix of the sanitised name, case kept |
| `Upload.UnfenceFence` | DeepSeekChat/obj/app/server.py:200 | the fence (three backticks, the tag, a line break, the content, a line break, three backticks) can be read back into that tag and that content when the tag has no line break |
| `Upload.UploadFile` | DeepSeekChat/obj/app/server.py:177-208 | 400 "No file uploaded", then 400 "Empty filename", then 400 "Unsupported file type", in that order. An allowed file whose save or read raised gives the catch-all 500. The reply succeeds iff a named, allowed file was read. Its body is then the one-choice envelope whose message has role `assistant` and the fenced content |
| `Upload.UploadExample` | DeepSeekChat/obj/app/server.py:197-204 | `a.txt` holding `hi` is answered with the fence whose tag is `txt` and whose content is `hi` |
| `Upload.FenceKeepsCase` | DeepSeekChat/obj/app/server.py:200 | the tag taken from `A.TXT` stays `TXT` |
| `Json.FirstChoiceMessage` | DeepSeekChat/obj/app/server.py:164-165 | the message is found exactly when the body is an object whose `choices` is a non-empty array whose first element is an object with a `message` key. It is then that value |
| `Json.FirstChoiceOfSingleChoice` | DeepSeekChat/obj/app/server.py:197-204 | the upload envelope has the shape the relay reads a completion from: its first choice gives back the message |
| `Chats.DefaultName` | DeepSeekChat/obj/app/server.py:89 | the default name is `Chat-` followed by decimal digits, with no leading zero, that read back as the row count plus one |
| `Chats.DefaultNameInjective` | DeepSeekChat/obj/app/server.py:89 | default names `Chat-<N+1>` for different row counts differ |
| `Chats.SelectModel` | DeepSeekChat/obj/app/server.py:114-120 | the model sent is always allowed. It is the requested one iff that is the string `deepseek-chat` or `deepseek-reasoner`; otherwise (absent included) it is `deepseek-chat` |
| `Chats.IncomingMessages` | DeepSeekChat/obj/app/server.py:115 | an absent `messages` key is the empty list; a list is taken as is; anything else is an error |
| `Chats.MissingId` | DeepSeekChat/obj/app/server.py:122 | an id counts as present exactly when the key is there with a non-empty string |
| `Chats.ChatObject` | DeepSeekChat/obj/app/server.py:103-104 | the `get_chat` object has exactly the keys `id`, `name` and `messages`, and reads back as that id, name and message sequence |
| `Chats.Names` | DeepSeekChat/obj/app/server.py:72 | the projection has the table's ids as keys, each mapped to its row's name |
| `Chats.ChatTable.constructor` | DeepSeekChat/obj/app/server.py:30-39 | the table starts with the rows already in the database file |
| `Chats.ChatTable.LoadChat` | DeepSeekChat/obj/app/server.py:64-67 | None exactly when no row has that id, otherwise that row |
| `Chats.ChatTable.LoadAllChats` | DeepSeekChat/obj/app/server.py:69-72 | each stored id appears once, mapped to its name |
| `Chats.ChatTable.SaveChat` | DeepSeekChat/obj/app/server.py:56-62 | insert-or-replace of the whole row. Loading the id then gives exactly that name and message sequence. Every other row is unchanged, the projection gains or updates only that id, and the row count grows only for a new id |
| `Chats.ChatTable.NewChat` | DeepSeekChat/obj/app/server.py:85-93 | the fresh id is stored with an empty transcript under the given name, or `Chat-<N+1>` when the key is absent. The table grows by one and the reply names the stored id and name |
| `Chats.ChatTable.GetChat` | DeepSeekChat/obj/app/server.py:95-104 | 404 "Chat not found" exactly for an unknown id; otherwise the row with its id |
| `Chats.ChatTable.HandleChat` | DeepSeekChat/obj/app/server.py:109-175 | 400 "Missing chat ID" comes before any lookup, then 404 "Chat not found", neither calling the provider. The provider gets stored ++ new messages under the selected model. A request error gives 500 "API Error: …" and extraction failures give 500. Only success changes the table: the transcript becomes stored ++ new ++ [first choice's message] under the old name, and the raw body is returned |

## Left out

- HTTP routing, `request.json` parsing, `jsonify`, `render_template` and status plumbing are not modelled. Handlers return `Http.Response` values.
- The `get_chats` route (`GET /api/chats`) is left out. It lists the same id/name pairs as `load_all_chats`, in SQLite's row order, which the model does not fix.
- SQLite connection handling (`get_db`, `init_db`, `close_connection`) and `commit` are left out. Storage failures are not modelled, so `save_chat` always succeeds.
- The JSON text encoding of the `messages` column (`json.dumps`/`json.loads`) is left out. Messages are stored as JSON values.
- `uuid.uuid4()` is replaced by the `freshId` parameter. `requests.post`, the bearer header and the API key are replaced by the `ProviderOutcome` parameter.
- The `temperature: 0.0` payload field and all `print` logging are left out.
- `secure_filename` and the file save/read/remove are left out. Their results are parameters of `UploadFile`.
- The count-then-insert race between concurrent `new_chat` calls is left out. The model is sequential.
- Text.Lower: models `str.lower()` on ASCII letters only. Other characters are left unchanged, whatever their Unicode lower case.
- Chats.ChatTable.HandleChat: `chat_id` is modelled as an optional string. Ids of other JSON types, which SQLite binding may accept or reject, are not modelled.
- Chats.ChatTable.NewChat: the supplied `name` is modelled as an optional string. Other JSON names are not modelled. A `null` name would be stored as NULL. The `name TEXT` column (server.py:36) would store a number or boolean as its text. An array or object name makes the parameter binding of server.py:58-61 raise, so `new_chat` answers with its catch-all 500 (server.py:92-93).
- Chats.ChatTable.HandleChat: the text of the catch-all 500 (Python's exception message) is not reproduced. It appears as `Http.InternalError`.
