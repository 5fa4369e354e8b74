# EstacaoDoces back-office core in Dafny

A model of the core of EstacaoDoces, a PyQt5 back office for a sweet shop,
and proofs about it. The model covers these parts:

- **Database access layer** (`DatabaseManager`, db_manager.dfy). It covers
  the products, suppliers, customers and promotions tables. Each table is a
  map from id to record plus SQLite's AUTOINCREMENT counter. The layer
  provides insert, update, delete and get, the filtered listings with their
  joins, the expiry queries sorted by expiry date, and the UNIQUE
  `documento` constraint.
- **Cash-register window** (`CaixaWindow`, caixa_window.dfy). It covers the
  sale cart and its total, finishing a sale, opening and closing the till,
  and the till movements with their totals. The ledger methods it calls
  are recorded as a trace of calls, and their answers are parameters.
- **Notification service** (`NotificacaoService`, notificacao_service.dfy).
  It covers how the configuration file is merged over the defaults, the
  low-stock check and the expiry check, which splits products into an
  urgent group and an alert group.
- **Account dialogs**: registration, change password, add or edit user,
  and profile. Each is modelled with its ordered guard chain and the rows
  it writes (register_window.dfy, change_password_window.dfy,
  user_dialog_window.dfy, profile_window.dfy, usuarios.dfy).
- **Migration scripts** (migrate_fornecedores.dfy, migrate_produtos.dfy,
  roolback_produtos.dfy). They run over a model of SQLite tables with
  columns and rows (sqlite_schema.dfy). Python's sqlite3 module opens a
  transaction only before an INSERT, UPDATE or DELETE. A CREATE, ALTER,
  RENAME or DROP that runs with no transaction open takes effect at once;
  one that follows such a statement joins its transaction and takes effect
  at the commit. So a script that fails part-way keeps the schema changes
  it made outside a transaction, and the model shows which ones.

Money is kept in integer cents and dates as day numbers. The clock,
SHA-256 and the answers of database methods outside the core are
parameters. text.dfy gives the Python string operations the core uses:
`strip()`, `split()`, `upper()` below U+0100, ASCII case folding,
substring containment,
and full matches of the e-mail pattern `[^@]+@[^@]+\.[a-zA-Z]{2,}` and of
the login pattern `[a-zA-Z0-9_]+`.

## Model

| member | source | states |
|---|---|---|
| Text.StripSpec | ui/register_window.py:183-185 | `strip()` leaves nothing exactly when the text is all whitespace, and otherwise a text that starts and ends with a non-whitespace character |
| Text.Split | ui/profile_window.py:38 | `split()` returns non-empty words free of whitespace, and no word exactly when the text is all whitespace |
| Text.SplitUnica | ui/profile_window.py:38 | a text made of whitespace gaps and words, with a non-empty gap between any two words, splits into exactly those words, in order |
| Text.SplitDecompoe | ui/profile_window.py:38 | every text is whitespace gaps interleaved with the words `split()` returns; with SplitUnica, the words are the maximal runs of non-whitespace, in order |
| Text.Upper | ui/profile_window.py:38 | `str.upper()` of one character below U+0100: it changes exactly the lower-case letters, and only sharp s becomes two characters ("SS") |
| Text.UpperIdempotente | ui/profile_window.py:38 | upper-casing an upper-cased character changes nothing more |
| Text.BlankIffNoWords | ui/profile_window.py:38 | a text splits into no words exactly when its strip is empty |
| Text.ContainsIff | database/db_manager.py:117 | `LIKE '%t%'` (case-insensitive for ASCII) holds exactly when some window of the lowered text equals the lowered term |
| Text.IsEmailCorreto | ui/register_window.py:204-205 | every text the form accepts as an e-mail matches `[^@]+@[^@]+\.[a-zA-Z]{2,}` |
| Text.IsEmailCompleto | ui/register_window.py:204-205 | every text matching `[^@]+@[^@]+\.[a-zA-Z]{2,}` is accepted as an e-mail |
| Text.IsEmailIff | ui/register_window.py:204-205 | the check the forms make (`exactMatch`, and the validator's full match in the profile dialog) succeeds exactly when the text fully matches `[^@]+@[^@]+\.[a-zA-Z]{2,}` |
| DbManager.Get | database/db_manager.py:109-111 | a fetch by id finds a row exactly when the id is stored, and returns that row |
| DbManager.InsertSpec | database/db_manager.py:81-90 | an insert gets an id above every id ever used, stores the row there, leaves the other rows alone and keeps the table well formed |
| DbManager.DeleteThenInsertFresh | database/db_manager.py:104-107 | AUTOINCREMENT never reuses a deleted id: an insert after a delete does not bring the deleted id back |
| DbManager.UpdateSpec | database/db_manager.py:92-102 | an update by id replaces that row only if it exists and leaves every other row and the id counter as they were |
| DbManager.DeleteSpec | database/db_manager.py:104-107 | a delete by id removes that row only and shrinks the table by one when the row existed |
| DbManager.ScanFrom | database/db_manager.py:113-120 | a scan by id yields exactly the stored rows in the range that pass the filter, in increasing id order |
| DbManager.Select | database/db_manager.py:113-120 | a `SELECT ... WHERE` yields every stored row that passes the filter and nothing else, in increasing id order |
| DbManager.InsertByKey | database/db_manager.py:129 | inserting one row into a list sorted by key keeps it sorted and adds exactly that row |
| DbManager.SortBy | database/db_manager.py:126-132 | `ORDER BY` returns a permutation of its input that is sorted by the key |
| DbManager.SortByDistintos | database/db_manager.py:126-132 | `ORDER BY` over rows with distinct ids returns each row once |
| DbManager.UniqueKept | database/db_manager.py:41 | writing a row whose `documento` no other row holds keeps `documento` unique across the table |
| DbManager.DatabaseManager.constructor | database/db_manager.py:20-75 | on a new database file the four tables start empty with fresh id counters (`CREATE TABLE IF NOT EXISTS` keeps the rows of an existing file, which the model does not open) |
| DbManager.DatabaseManager.AdicionarProduto | database/db_manager.py:81-90 | a product is inserted under the next id with today's registration date; no other table changes |
| DbManager.DatabaseManager.AtualizarProduto | database/db_manager.py:92-102 | the product's fields are replaced and its registration date kept, only when the id exists; no other table changes |
| DbManager.DatabaseManager.ExcluirProduto | database/db_manager.py:104-107 | the product row is removed, and the answer says whether it existed |
| DbManager.DatabaseManager.ObterProduto | database/db_manager.py:109-111 | the product with that id, or None when there is none |
| DbManager.DatabaseManager.JuntarFornecedor | database/db_manager.py:114-116 | the LEFT JOIN attaches each product's supplier name, or None, and keeps the order and the length |
| DbManager.DatabaseManager.ListarProdutos | database/db_manager.py:113-120 | exactly the products whose name or description contain the filter, each with its supplier name, in id order |
| DbManager.DatabaseManager.VerificarProdutosVencendo | database/db_manager.py:122-132 | the products whose expiry date falls between today and today plus the given days, each once (distinct ids, and the same multiset of rows as the WHERE selection), sorted by expiry date |
| DbManager.DatabaseManager.VerificarProdutosVencidos | database/db_manager.py:134-143 | the products whose expiry date is before today, each once (distinct ids, and the same multiset of rows as the WHERE selection), sorted by expiry date |
| DbManager.DatabaseManager.AdicionarFornecedor | database/db_manager.py:146-152 | a supplier is inserted unless its documento is already taken, which fails with the UNIQUE error and changes nothing |
| DbManager.DatabaseManager.AtualizarFornecedor | database/db_manager.py:154-161 | a missing id changes nothing, a documento held by another supplier fails, and otherwise the row is replaced |
| DbManager.DatabaseManager.ExcluirFornecedor | database/db_manager.py:163-166 | the supplier row is removed, and the answer says whether it existed |
| DbManager.DatabaseManager.ObterFornecedor | database/db_manager.py:168-170 | the supplier with that id, or None |
| DbManager.DatabaseManager.ListarFornecedores | database/db_manager.py:172-179 | exactly the suppliers whose name or documento contain the filter, in id order |
| DbManager.DatabaseManager.AdicionarCliente | database/db_manager.py:182-188 | a customer is inserted unless its documento is already taken, which fails and changes nothing |
| DbManager.DatabaseManager.AtualizarCliente | database/db_manager.py:190-197 | a missing id changes nothing, a documento held by another customer fails, and otherwise the row is replaced |
| DbManager.DatabaseManager.ExcluirCliente | database/db_manager.py:199-202 | the customer row is removed, and the answer says whether it existed |
| DbManager.DatabaseManager.ObterCliente | database/db_manager.py:204-206 | the customer with that id, or None |
| DbManager.DatabaseManager.ListarClientes | database/db_manager.py:208-215 | exactly the customers whose name or documento contain the filter, in id order |
| DbManager.DatabaseManager.AdicionarPromocao | database/db_manager.py:218-227 | a promotion is inserted under the next id; no other table changes |
| DbManager.DatabaseManager.AtualizarPromocao | database/db_manager.py:229-239 | the promotion is replaced only when the id exists |
| DbManager.DatabaseManager.ExcluirPromocao | database/db_manager.py:241-244 | the promotion row is removed, and the answer says whether it existed |
| DbManager.DatabaseManager.ObterPromocao | database/db_manager.py:246-248 | the promotion with that id, or None |
| DbManager.DatabaseManager.JuntarProduto | database/db_manager.py:251-255 | the LEFT JOIN attaches each promotion's product name, or None, and keeps the order and the length |
| DbManager.DatabaseManager.ListarPromocoes | database/db_manager.py:250-261 | exactly the promotions whose description or product name contain the filter, with the product name, in id order |
| DbManager.DatabaseManager.ListarPromocoesAtivas | database/db_manager.py:263-273 | the promotions whose date range contains today, each with its product name, once each and in rowid order (strictly increasing ids) |
| DbManager.VencidosDisjuntosDeVencendo | database/db_manager.py:122-143 | no product is both expired and about to expire |
| DbManager.LerLiteral | database/db_manager.py:117 | SQLite's reading of a quoted string literal: the text up to the closing quote, two quotes standing for one |
| DbManager.LerLiteralAteAspa | database/db_manager.py:117 | a literal with no quote inside ends at the first quote, and the rest of the text follows |
| DbManager.PadraoSemAspas | database/db_manager.py:116-117 | as written, a filter without a quote is read as the pattern `%filtro%` followed by the rest of the clause, as a bound parameter would be |
| DbManager.PadraoCortadoNaAspa | database/db_manager.py:116-117 | as written, a filter with a quote (not doubled) is read only up to that quote, and the rest of the filter is read as SQL text |
| DbManager.FiltroVazioListaTudo | database/db_manager.py:113-215 | an empty filter lists every product, supplier and customer |
| Caixa.SomaSubtotaisConcat | ui/caixa_window.py:411-413 | the sale total of two carts put together is the sum of their totals |
| Caixa.SomaSubtotaisSemItem | ui/caixa_window.py:405-413 | removing one cart line lowers the total by exactly that line's subtotal |
| Caixa.SomaSubtotaisNaoNegativa | ui/caixa_window.py:347-380 | a cart of lines that the add-item dialog accepts never has a negative total |
| Caixa.SomarSubtotais | ui/caixa_window.py:411-413 | the loop over the cart computes the sum of the subtotals |
| Caixa.ParcelasEfetivas | ui/caixa_window.py:487-493 | only a credit-card payment keeps the instalment count from the spin box; any other payment records one instalment |
| Caixa.ChamadasItens | ui/caixa_window.py:514-520 | one `registrar_item_venda` call per cart line, in order, carrying that line's product, quantity, price and subtotal |
| Caixa.SomaRegistradaItens | ui/caixa_window.py:514-520 | the item calls of a sale add up to the cart total |
| Caixa.VendaRegistradaConfere | ui/caixa_window.py:499-545 | a recorded sale registers the sale with its total, discount and instalments, then one item per line adding up to the total, then one Entrada movement of total minus discount |
| Caixa.SaldoInformadoPadrao | ui/caixa_window.py:610-611 | the declared closing balance defaults to the system balance, clamped into the spin box's range |
| Caixa.DiferencaPadrao | ui/caixa_window.py:643-644 | with the default declared balance the difference is zero exactly when the system balance fits the spin box |
| Caixa.RelatorioFechamentoComoEscrito | ui/caixa_window.py:659-661 | the closing report as written: it reads the id of the till that is open after the refresh |
| Caixa.RelatorioFechamentoComoEscritoFalha | ui/caixa_window.py:659-661 | as written, closing the only open till leads to a TypeError instead of the report of the closed till |
| Caixa.TotaisConcat | ui/caixa_window.py:783-797 | the incoming and outgoing totals of two lists of movements put together are the sums of their totals |
| Caixa.SaldoPeriodoCorreto | ui/caixa_window.py:783-815 | the period balance, incoming minus outgoing, equals the sum of the movements signed by their kind |
| Caixa.TotaisMovimentos | ui/caixa_window.py:783-815 | the loop's incoming total, outgoing total and balance are the totals over all the movements |
| Caixa.ValidarMovimento | ui/caixa_window.py:931-937 | a movement needs a non-blank description and then a positive amount; the accepted description is the stripped text |
| Caixa.CaixaWindow.constructor | ui/caixa_window.py:11-20 | the window opens with an empty cart, a zero total and the open till found at start-up |
| Caixa.CaixaWindow.VerificarCaixaAberto | ui/caixa_window.py:295-316 | the current till becomes whatever till the ledger reports open; the cart is kept |
| Caixa.CaixaWindow.CalcularTotal | ui/caixa_window.py:411-413 | the sale total becomes the sum of the cart's subtotals |
| Caixa.CaixaWindow.AdicionarItem | ui/caixa_window.py:347-384 | no selection, an invalid product or too little stock leave the cart alone; otherwise the line is appended and the total grows by quantity times price |
| Caixa.CaixaWindow.RemoverItem | ui/caixa_window.py:405-409 | removing a valid row drops that line and lowers the total by its subtotal; any other row changes nothing |
| Caixa.CaixaWindow.LimparVenda | ui/caixa_window.py:415-424 | a confirmed clear empties a non-empty cart and zeroes the total; otherwise nothing changes |
| Caixa.CaixaWindow.FinalizarVenda | ui/caixa_window.py:426-548 | no till, an empty cart or a cancelled dialog change nothing; otherwise the sale is recorded with its calls and the cart is cleared only when the ledger returns a sale id |
| Caixa.CaixaWindow.ConfirmarAbertura | ui/caixa_window.py:576-586 | the opening call is recorded with the operator "Sistema", and the current till is refreshed only when opening succeeds |
| Caixa.CaixaWindow.FecharCaixa | ui/caixa_window.py:592-667 | closing needs an open till and a confirmation, records one close call with the difference, and on success reports the closed till's own id |
| Caixa.CaixaWindow.CarregarMovimentos | ui/caixa_window.py:771-824 | with no till every total is zero; otherwise the totals and the balance of the movements |
| Caixa.CaixaWindow.FiltrarMovimentos | ui/caixa_window.py:826-880 | no totals without a till; otherwise the incoming, outgoing and signed totals of the period's movements |
| Caixa.CaixaWindow.NovoMovimento | ui/caixa_window.py:925-961 | no till or a failing validation records nothing; otherwise one movement call with the stripped description |
| NotificacaoService.PadraoDoServicoBemFormado | notificacoes/notificacao_service.py:36-58 | the default configuration is an object of objects, which the merge relies on |
| NotificacaoService.Pertence | notificacoes/notificacao_service.py:71 | `subkey in value` is defined for objects, lists and strings and raises TypeError for any other value |
| NotificacaoService.PreenchidoPasso | notificacoes/notificacao_service.py:70-72 | filling one more default subkey adds it only when the file lacks it |
| NotificacaoService.ParcialPasso | notificacoes/notificacao_service.py:65-73 | merging one more top-level key adds the default section or the merged file section |
| NotificacaoService.MesclarSpec | notificacoes/notificacao_service.py:65-73 | the merge as a function: missing sections and subkeys taken from the defaults, None when a check raises |
| NotificacaoService.MesclarSubchaves | notificacoes/notificacao_service.py:70-72 | the inner loop fills the missing subkeys of one section as the merge function does |
| NotificacaoService.MesclarConfig | notificacoes/notificacao_service.py:65-73 | the nested loops compute the merge function |
| NotificacaoService.ConfigCarregada | notificacoes/notificacao_service.py:60-86 | a missing file or a merge that raises gives the defaults; otherwise the merged file |
| NotificacaoService.CarregarConfig | notificacoes/notificacao_service.py:60-86 | `_carregar_config` returns the loaded configuration |
| NotificacaoService.MesclaNaoSobrescreve | notificacoes/notificacao_service.py:65-73 | the merge never overwrites a value the file holds, at either level |
| NotificacaoService.MesclaPreenche | notificacoes/notificacao_service.py:65-73 | after the merge, every default section and every default subkey of an object section is present |
| NotificacaoService.SegundoNivelCompleto | notificacoes/notificacao_service.py:70-72 | a section that already holds every default subkey is left as it is |
| NotificacaoService.MesclaIdempotente | notificacoes/notificacao_service.py:65-73 | merging an already merged configuration changes nothing |
| NotificacaoService.PadraoMesclaASiMesmo | notificacoes/notificacao_service.py:65-73 | merging a defaults table into itself changes nothing |
| NotificacaoService.CarregarIdempotente | notificacoes/notificacao_service.py:60-86 | loading a saved, loaded configuration gives it back, and the defaults load as themselves |
| NotificacaoService.CarregadaTemSecoes | notificacoes/notificacao_service.py:15-24 | a loaded configuration always has the `email` and `notificacoes` sections the constructor reads |
| NotificacaoService.MaiorDe | notificacoes/notificacao_service.py:179-180 | `max` of a non-empty list is an element no smaller than any other |
| NotificacaoService.MenorDe | notificacoes/notificacao_service.py:169 | the smallest alert day is an element no larger than any other |
| NotificacaoService.UrgentesMembros | notificacoes/notificacao_service.py:183-190 | the urgent group is exactly the products expiring within the smallest alert day |
| NotificacaoService.AlertasMembros | notificacoes/notificacao_service.py:183-192 | the alert group is exactly the products within the largest alert day that are not urgent |
| NotificacaoService.BaldesParticionam | notificacoes/notificacao_service.py:183-192 | the two groups are disjoint, hold only listed products and cover every product within the largest alert day |
| NotificacaoService.Classificar | notificacoes/notificacao_service.py:183-192 | the classifying loop builds exactly the urgent group and the alert group |
| NotificacaoService.BuscarTodosProdutosVencendo | notificacoes/notificacao_service.py:212-242 | the products expiring within the given days, each once (distinct ids), with their supplier names, sorted by expiry date |
| NotificacaoService.AvisosVencimento | notificacoes/notificacao_service.py:194-210 | at most two e-mails, and none exactly when both groups are empty |
| NotificacaoService.AvisosIff | notificacoes/notificacao_service.py:183-210 | when the candidates are not yet expired, some e-mail goes out exactly when some candidate is within the largest alert day (the query's own rows are covered by AvisaSeAlgumaLinhaVence) |
| NotificacaoService.AvisaSeAlgumaLinhaVence | notificacoes/notificacao_service.py:179-210 | over candidates that are exactly the rows expiring within the largest alert day, an e-mail goes out exactly when such a row exists |
| NotificacaoService.AvisaSeAlgumVence | notificacoes/notificacao_service.py:179-210 | an e-mail goes out exactly when some stored product expires within the largest alert day |
| NotificacaoService.Textos | notificacoes/notificacao_service.py:136 | a JSON list is read as strings exactly when every item is a string, and the strings give the list back |
| NotificacaoService.Numeros | notificacoes/notificacao_service.py:169 | a JSON list is read as numbers exactly when every item is a number, and the numbers give the list back |
| NotificacaoService.LerVerificacao | notificacoes/notificacao_service.py:109-121 | a check section reads as settings only when it has `ativo`, a numeric `verificar_a_cada_horas` and a readable `ultima_verificacao`; `ativo` is taken by its truth value and a false-like last check counts as none |
| NotificacaoService.PadraoTipado | notificacoes/notificacao_service.py:36-58 | without a config.json the checks run on the defaults: both active every 24 hours and never run, alerts at 15 and 30 days, the two default recipients |
| NotificacaoService.NotificacaoService.constructor | notificacoes/notificacao_service.py:7-24 | the service starts with the configuration `_carregar_config` loads, read as the checks read it, and nothing sent |
| NotificacaoService.NotificacaoService.VerificarEstoqueBaixo | notificacoes/notificacao_service.py:101-139 | an inactive check or one run too early does nothing; otherwise the check is stamped, an empty list succeeds silently, and a non-empty one sends one e-mail |
| NotificacaoService.NotificacaoService.VerificarProdutosVencendo | notificacoes/notificacao_service.py:141-210 | an inactive or early check does nothing; otherwise the check is stamped, an empty day list raises ValueError, and the warnings for the found products are sent |
| RegisterWindow.TipoDe | ui/register_window.py:188 | the user type is "admin" exactly for the Administrador entry, and "comum" otherwise |
| RegisterWindow.EditarLogin | ui/register_window.py:88-89 | the login field only takes edits that keep it within `[a-zA-Z0-9_]` |
| RegisterWindow.LoginSemEspaco | ui/register_window.py:88-89 | a text the login field can hold is unchanged by `strip()` |
| RegisterWindow.HandleRegister | ui/register_window.py:181-217 | an empty field is reported first, and an accepted form registers the stripped name and e-mail, the login, the password and the type |
| RegisterWindow.CadastroAceitoIff | ui/register_window.py:191-207 | a registration is accepted exactly when all fields are filled, the password has at least 6 characters and is confirmed, and the e-mail matches the pattern |
| RegisterWindow.PrimeiraFalhaReportada | ui/register_window.py:191-207 | the checks run in order and each failure is reported only when every earlier check passed |
| ChangePasswordWindow.ValidarTroca | ui/change_password_window.py:135-145 | no error exactly when all fields are filled, the new password has at least 6 characters and is confirmed; empty fields come first |
| ChangePasswordWindow.ValidarTrocaOrdem | ui/change_password_window.py:135-145 | a short password is reported only with all fields filled, and a mismatch only when the password is long enough |
| ChangePasswordWindow.ChangePasswordWindow.constructor | ui/change_password_window.py:8-14 | the dialog keeps the database and the user's id |
| ChangePasswordWindow.ChangePasswordWindow.SavePassword | ui/change_password_window.py:128-171 | the hash is replaced exactly when the checks pass and the current password's hash matches the stored one; otherwise no row changes |
| Usuarios.TabelaUsuarios.AtualizarSenha | ui/change_password_window.py:163-166 | `UPDATE usuarios SET senha` changes only that user's hash, and the new hash then matches |
| Usuarios.TabelaUsuarios.AtualizarPerfil | ui/profile_window.py:219-221 | `UPDATE usuarios SET nome, email` changes only that user's row |
| UserDialogWindow.ValidarCampos | ui/user_dialog_window.py:146-172 | a blank name, then a blank login, then (when passwords are checked) an empty password, then an unconfirmed one: each error is returned exactly when every earlier check passes |
| UserDialogWindow.TipoCombo | ui/user_dialog_window.py:67-68 | the combo's data is "admin" exactly for the Administrador entry |
| UserDialogWindow.AtivoDe | ui/user_dialog_window.py:187 | the active flag is 1 exactly when the Ativo radio is checked, else 0 |
| UserDialogWindow.UserDialogWindow.constructor | ui/user_dialog_window.py:10-20 | in edit mode the password fields start disabled under an unchecked box; in add mode they are enabled |
| UserDialogWindow.UserDialogWindow.MarcarAlterarSenha | ui/user_dialog_window.py:111-118 | the password fields follow the box, and unchecking it clears them |
| UserDialogWindow.UserDialogWindow.DigitarSenhas | ui/user_dialog_window.py:51-57 | only enabled password fields take text, and the field invariant is kept |
| UserDialogWindow.UserDialogWindow.SalvarUsuario | ui/user_dialog_window.py:174-212 | an invalid form writes nothing; an edit updates the user and changes the password only if the update succeeded and the box is checked; an add registers the hash of the password |
| ProfileWindow.PrimeirasPalavras | ui/profile_window.py:38 | the first two words of the name, or all of them when there are fewer |
| ProfileWindow.Iniciais | ui/profile_window.py:38 | the upper-cased first character of each of the first two words of `split()`, joined |
| ProfileWindow.IniciaisVazias | ui/profile_window.py:38 | the initials are empty exactly for a blank name; a name of two words or more has two to four characters of initials, and exactly two unless a word starts with sharp s |
| ProfileWindow.IniciaisDeDuasPalavras | ui/profile_window.py:38 | two words with whitespace between give their two upper-cased first characters, accented ones included ("érica souza" gives "ÉS") |
| ProfileWindow.ValidarPerfilComoEscrito | ui/profile_window.py:205-215 | as written: the name is stripped but the e-mail pattern is matched on the raw text |
| ProfileWindow.EmailComEspacoAceito | ui/profile_window.py:213-221 | as written, " @b.co" is accepted, yet the stored stripped value "@b.co" does not match the pattern |
| ProfileWindow.ValidarPerfil | ui/profile_window.py:203-215 | the check on the stripped values: a blank name fails, and a non-blank e-mail must match the pattern after stripping |
| ProfileWindow.ProfileWindow.constructor | ui/profile_window.py:8-14 | the dialog keeps the database and the session's user record |
| ProfileWindow.ProfileWindow.SaveProfile | ui/profile_window.py:203-232 | with the corrected check on the stripped e-mail (see Findings), on success the stripped name and e-mail go to the user's row and to the session record, which keeps its id and login; on failure nothing changes |
| Sqlite.Nomes | scripts/migrate_produtos.py:64-66 | `PRAGMA table_info` lists the column names in order |
| Sqlite.ComColuna | scripts/migrate_produtos.py:70 | `ADD COLUMN` appends the column and gives each existing row the column's default |
| Sqlite.NomesComColuna | scripts/migrate_produtos.py:68-70 | after `ADD COLUMN` the names are the old ones followed by the new one |
| Sqlite.NomesConcat | scripts/migrate_produtos.py:64-66 | the names of two column lists put together are their names put together |
| Sqlite.ComLinhas | scripts/migrate_produtos.py:80-84 | an UPDATE keeps the columns and the row count, and rewrites each row |
| Sqlite.Obter | scripts/migrate_fornecedores.py:93-100 | `dict.get`: the stored value, or the given default when the row has no such column |
| Sqlite.Projecao | scripts/roolback_produtos.py:38-42 | `SELECT c1, ..., cn` yields the named columns of a row and copies their values |
| Sqlite.Projecoes | scripts/roolback_produtos.py:32-43 | the projection of every row, in order |
| Sqlite.Database.constructor | scripts/migrate_produtos.py:16-18 | the connection sees the tables in the file |
| Sqlite.Database.CriarTabela | scripts/roolback_produtos.py:12-29 | CREATE TABLE succeeds exactly when the name is free, and adds an empty table |
| Sqlite.Database.CriarTabelaSeNaoExiste | scripts/migrate_fornecedores.py:40-52 | CREATE TABLE IF NOT EXISTS adds an empty table only when the name is free |
| Sqlite.Database.AdicionarColuna | scripts/migrate_produtos.py:70 | ADD COLUMN fails for a missing table, a taken name or a non-constant default, and otherwise adds the column |
| Sqlite.Database.Renomear | scripts/roolback_produtos.py:9 | RENAME TO succeeds exactly when the old name exists and the new one is free, and moves the table |
| Sqlite.Database.Remover | scripts/roolback_produtos.py:46 | DROP TABLE removes an existing table and fails for a missing one |
| Sqlite.Database.Atualizar | scripts/migrate_produtos.py:80-84 | an UPDATE fails when the table or a named column is missing, and otherwise rewrites every row |
| Sqlite.Database.InserirSelecao | scripts/roolback_produtos.py:32-43 | INSERT ... SELECT appends the projected rows, or fails with no change when a table or column is missing or a NOT NULL column would get NULL |
| Sqlite.Database.Reverter | scripts/migrate_fornecedores.py:34-36 | closing without a commit rolls the open transaction back |
| Sqlite.Database.Inserir | scripts/migrate_fornecedores.py:103-117 | an INSERT appends its rows, or fails with no change when a NOT NULL column would get NULL |
| MigrateFornecedores.NomesColunas | scripts/migrate_fornecedores.py:71-83 | the new supplier table has these nine columns in this order, and only `nome` is NOT NULL |
| MigrateFornecedores.Representante | scripts/migrate_fornecedores.py:95-100 | a non-empty text documento becomes "Migrado de documento: " plus the documento, and anything else the empty text |
| MigrateFornecedores.ConverterTodas | scripts/migrate_fornecedores.py:90-117 | every old row is converted, in order |
| MigrateFornecedores.MigracaoTabela | scripts/migrate_fornecedores.py:54-126 | the table migration as a function of the tables |
| MigrateFornecedores.Migracao | scripts/migrate_fornecedores.py:4-36 | the script run as a function of the tables |
| MigrateFornecedores.InsercaoAceitaSse | scripts/migrate_fornecedores.py:103-117 | a converted row is accepted exactly when its old `nome` is not NULL |
| MigrateFornecedores.CopiarLinhas | scripts/migrate_fornecedores.py:90-117 | the copy loop succeeds exactly when every row has an `id` and a `nome` column and no row has a NULL name (a missing column is the KeyError of lines 108-109), and then fills the new table with the converted rows; a failure changes nothing |
| MigrateFornecedores.MigrarTabelaFornecedores | scripts/migrate_fornecedores.py:54-126 | the method computes the table migration function |
| MigrateFornecedores.MigrarBancoDados | scripts/migrate_fornecedores.py:4-36 | the method computes the script run function, result and tables |
| MigrateFornecedores.MigracaoIdempotente | scripts/migrate_fornecedores.py:62-66 | running the script again after a success changes nothing |
| MigrateFornecedores.FalhaPersiste | scripts/migrate_fornecedores.py:71-83 | a failed run keeps the old table, leaves `fornecedores_temp` behind, and so every later run fails |
| MigrateFornecedores.ConverterMigra | scripts/migrate_fornecedores.py:92-117 | a converted row keeps id and name, copies phone, e-mail, address and contact (empty text when absent), takes frequency "Média", turns a non-empty documento into the representative and drops documento |
| MigrateFornecedores.MigracaoPreservaLinhas | scripts/migrate_fornecedores.py:86-126 | a successful migration keeps the row count and migrates every row |
| MigrateProdutos.MargemDe | scripts/migrate_produtos.py:82 | the margin is the percentage by which the sale price exceeds the purchase price, positive exactly when it does |
| MigrateProdutos.MigracaoTabela | scripts/migrate_produtos.py:62-96 | the six column blocks as a function of the table |
| MigrateProdutos.Migracao | scripts/migrate_produtos.py:4-36 | the script run as a function of the tables |
| MigrateProdutos.FaltantesMembros | scripts/migrate_produtos.py:68-96 | the columns added are exactly those of the six that the table lacked |
| MigrateProdutos.PassosAposFalha | scripts/migrate_produtos.py:76-84 | once a block raises, no later block runs |
| MigrateProdutos.AdicionarSeFaltar | scripts/migrate_produtos.py:68-96 | one plain block adds its column only when it is missing |
| MigrateProdutos.AdicionarMargem | scripts/migrate_produtos.py:76-84 | the margin block adds the column and then computes the margin for rows with positive prices |
| MigrateProdutos.Bloco | scripts/migrate_produtos.py:68-96 | one block runs as the block function does, and a failure stops the rest |
| MigrateProdutos.MigrarTabelaProdutos | scripts/migrate_produtos.py:62-96 | the method computes the six-block migration function |
| MigrateProdutos.MigrarBancoDados | scripts/migrate_produtos.py:4-36 | the method computes the script run function, result and tables |
| MigrateProdutos.FatosNovas | scripts/migrate_produtos.py:68-96 | the six new columns have distinct names, and only the third is `margem_lucro` |
| MigrateProdutos.MargemNovaIgnora | scripts/migrate_produtos.py:80-84 | the computed margin depends only on the two prices |
| MigrateProdutos.PassoLivre | scripts/migrate_produtos.py:68-96 | one block on a table lacking the later columns keeps them absent |
| MigrateProdutos.PassosContagem | scripts/migrate_produtos.py:68-96 | the blocks never change the number of rows |
| MigrateProdutos.PassosSucesso | scripts/migrate_produtos.py:76-84 | the blocks fail exactly when the margin column is added to a table without both price columns |
| MigrateProdutos.PassosColunas | scripts/migrate_produtos.py:68-96 | after the blocks the columns are the old ones followed by the missing ones |
| MigrateProdutos.PassosPreserva | scripts/migrate_produtos.py:68-96 | the blocks never change a value in an existing column |
| MigrateProdutos.PassosPadrao | scripts/migrate_produtos.py:68-96 | every added plain column holds its default in each existing row |
| MigrateProdutos.PassosMargem | scripts/migrate_produtos.py:76-84 | an added margin column holds, per row, the computed margin when both prices are positive and 30.0 otherwise |
| MigrateProdutos.MigracaoSucesso | scripts/migrate_produtos.py:20-84 | the script fails exactly when the products table exists, lacks the margin column and lacks at least one of the two price columns |
| MigrateProdutos.MigracaoColunas | scripts/migrate_produtos.py:68-96 | a successful migration appends exactly the missing columns, after which all six are present, and changes no other table |
| MigrateProdutos.MigracaoLinha | scripts/migrate_produtos.py:68-96 | a successful migration keeps each row's old values and fills each added column with its default or computed margin |
| MigrateProdutos.PassosSemFaltantes | scripts/migrate_produtos.py:64-96 | when all six columns are present the blocks do nothing |
| MigrateProdutos.CriadaTemNovas | scripts/migrate_produtos.py:38-60 | a freshly created products table already has all six columns |
| MigrateProdutos.SegundaExecucao | scripts/migrate_produtos.py:64-96 | a second run after a success succeeds and changes nothing |
| RoolbackProdutos.ColunasMantidas | scripts/roolback_produtos.py:12-29 | the rebuilt table has the thirteen kept columns, only `nome` is NOT NULL, and no removed column is copied |
| RoolbackProdutos.Desfazer | scripts/roolback_produtos.py:3-55 | the rollback script as a function of the tables |
| RoolbackProdutos.DesfazerMigracao | scripts/roolback_produtos.py:3-55 | the method computes the rollback function, result and tables |
| RoolbackProdutos.DesfazerSucesso | scripts/roolback_produtos.py:9-46 | the rollback succeeds exactly when `produtos` exists, `produtos_antiga` does not, every kept column is present and no row has a NULL name |
| RoolbackProdutos.DesfazerResultado | scripts/roolback_produtos.py:12-46 | a successful rollback leaves a `produtos` with exactly the kept columns, the same rows projected onto them, no `produtos_antiga`, and other tables unchanged |
| RoolbackProdutos.FalhaNaCopiaPersiste | scripts/roolback_produtos.py:9-43 | a failed copy leaves the old table as `produtos_antiga` and an empty new `produtos`, so every later run fails |
| RoolbackProdutos.MigracaoMantemColunas | scripts/migrate_produtos.py:68-96 | migrating a table of the rolled-back shape succeeds, changes no other table and keeps all thirteen columns |
| RoolbackProdutos.MigracaoMantem | scripts/migrate_produtos.py:68-96 | migrating a table of the rolled-back shape succeeds and keeps the kept columns of every row |
| RoolbackProdutos.MigracaoLinhaMantida | scripts/migrate_produtos.py:68-96 | per row: projecting the migrated row onto the kept columns gives the row back |
| RoolbackProdutos.DesfazerRestaura | scripts/roolback_produtos.py:9-46 | a rollback of a produtos that has the thirteen columns and projects onto a rolled-back table succeeds and puts that table back, leaving the others |
| RoolbackProdutos.MigracaoDesfeita | scripts/roolback_produtos.py:32-46 | the rollback undoes the product migration: for a table of the rolled-back shape, migrating then rolling back returns the same tables |

## Left out

- Widgets, layouts, styles and message boxes. A confirmation dialog is a bool parameter, and a spin box's range is a `requires` on the handler.
- The ledger methods of the database (`obter_caixa_aberto`, `registrar_venda`, `registrar_item_venda`, `registrar_movimento_caixa`, `abrir_caixa`, `fechar_caixa`, `obter_saldo_atual`, `obter_detalhes_caixa`, `listar_movimentos_caixa`, `listar_movimentos_por_periodo`) are not defined in database/db_manager.py. Calls to them are recorded as a trace, and their answers are parameters.
- `verificar_produtos_estoque_baixo` and `ensure_connection` are not defined in database/db_manager.py either. The low-stock list is a parameter of `VerificarEstoqueBaixo`.
- The usuarios table is not created in database/db_manager.py. Only the columns the account dialogs read and write are modelled, and `cadastrar_usuario`/`atualizar_usuario`/`alterar_senha_usuario` are recorded calls.
- SHA-256 is a function parameter. The clock is a parameter in seconds, and a day is 86400 seconds.
- Floating point: money is integer cents. The margin is a `real`, the exact quotient, not a double. Non-numeric text stored in a REAL column is not modelled.
- SQL `LIKE` is modelled as ASCII case-insensitive containment of the filter. The `%`/`_` wildcards inside a filter and Unicode case folding are left out.
- Python `isspace()` is modelled for code points below 256 only.
- `ORDER BY` ties: the model states sortedness and permutation (the same multiset of rows), not SQLite's order among equal keys.
- Listings without ORDER BY are given in rowid order, the order of a plain SQLite table scan; SQLite itself does not promise that order.
- Foreign keys are not enforced, as SQLite leaves them off by default.
- An INTEGER PRIMARY KEY given NULL gets a fresh rowid in SQLite. The rollback's copy keeps the value as given.
- Configuration file I/O and `_salvar_config` are not modelled. JSON numbers are integers, and keys below the second level are not merged.
- Sending e-mail (`EmailNotifier`, SMTP) is not modelled. A sent e-mail is recorded with its recipients and products, and the send result is a parameter.
- `gerar_relatorio_fechamento` is not modelled beyond the till id it receives.
- `backup_banco_dados` and `migrar_queries_fornecedores` are not modelled: the first copies a file, and the second does nothing.
- The main, dashboard, admin and CRUD windows are not part of this model. That includes their argument-count mismatches at ui/fornecedor_window.py:232 and ui/caixa_window.py:755.
- The registration form passes the plain password to `cadastrar_usuario`, while the user dialog passes its SHA-256 hex. The body of `cadastrar_usuario` is not part of this model, so which one is right is not decided.
- `print` output of the scripts is not modelled.
- MigrateProdutos.MigrarTabelaProdutos: the five plain blocks and the margin block run as one loop over the six new columns, in the script's order.
- NotificacaoService.NotificacaoService.VerificarEstoqueBaixo: does not model that the low-stock query may raise, because the query is not defined in the source. It reads the typed settings, so the KeyError of a section missing a key and the ValueError of an unreadable timestamp, which the source raises only when the check runs, are left out.
- NotificacaoService.NotificacaoService.VerificarProdutosVencendo: `_buscar_todos_produtos_vencendo` calls `self.db_manager.ensure_connection()`, which the DatabaseManager of database/db_manager.py does not define, so as written the check raises AttributeError after the timestamp is written. The model runs the query as if that call did nothing. Like the low-stock check, it reads the typed settings, so the lookup errors of its section are left out.
- NotificacaoService.NotificacaoService.constructor: requires that the whole loaded configuration reads as the typed settings (ConfigDe). The source only needs an `email` object there (lines 18-24, a TypeError otherwise) and reads each check's section, with its KeyError or ValueError, when that check runs. A stored timestamp is parsed by the `instante` parameter in place of `datetime.fromisoformat`.
- ProfileWindow.Iniciais: `upper()` is modelled for the characters below U+0100. Characters above that are left as they are, although Python upper-cases them too.
- DbManager.DatabaseManager.ListarProdutos: the filter is taken as a value, as a bound parameter would be. The source pastes it into the statement, so a filter with a quote fails or changes the query (see Findings). The model covers what the source does only for filters without a quote.
- DbManager.DatabaseManager.ListarFornecedores: the filter is taken as a value, and the model covers what the source does only for filters without a quote (see Findings).
- DbManager.DatabaseManager.ListarClientes: the filter is taken as a value, and the model covers what the source does only for filters without a quote (see Findings).
- DbManager.DatabaseManager.ListarPromocoes: the filter is taken as a value, and the model covers what the source does only for filters without a quote (see Findings).
- RoolbackProdutos.DesfazerResultado: tables carry no FOREIGN KEY clauses. The `promocoes` table declares `FOREIGN KEY (produto_id) REFERENCES produtos (id)` (database/db_manager.py:73). In SQLite 3.26 and later, with legacy_alter_table off, the RENAME at scripts/roolback_produtos.py:9 rewrites that clause to name `produtos_antiga`, and the DROP later leaves it pointing at a missing table. "Other tables unchanged" holds only for the model's tables.
- RoolbackProdutos.DesfazerRestaura: same gap as DesfazerResultado. `promocoes`' FOREIGN KEY clause, rewritten by the RENAME, is not modelled.
- RoolbackProdutos.MigracaoDesfeita: same gap as DesfazerResultado. The round trip holds for the model's tables, while in SQLite 3.26 and later `promocoes` ends up referencing the dropped `produtos_antiga`.

## Findings

| source | as written | input that shows it | evidently intended | confidence | as-written member | corrected member |
|---|---|---|---|---|---|---|
| ui/caixa_window.py:659-661 | after a successful close, the window refreshes the open till and then reads `self.caixa_atual['id']` for the report | closing the only open till: the refresh sets `caixa_atual` to None, so the report call raises TypeError | report the till that was just closed, using its id captured before the refresh | not executed | Caixa.RelatorioFechamentoComoEscritoFalha | Caixa.CaixaWindow.FecharCaixa |
| database/db_manager.py:116-117 | the filter is pasted into the statement text (`LIKE '%{filtro}%'`), and the same at lines 176, 212 and 258 | filter "d'água": the first pattern is read as `%d` and the text after it, `água%' ...`, is not SQL, so sqlite3 raises OperationalError; the filter `' OR 1=1 OR '` makes every row match | pass the pattern as a bound parameter (`LIKE ?` with `'%' + filtro + '%'`), so the filter is always taken literally | not executed | DbManager.PadraoCortadoNaAspa | DbManager.DatabaseManager.ListarProdutos |
| ui/profile_window.py:213-221 | the e-mail pattern is checked on the raw field text, but the stripped text is stored | e-mail field " @b.co": the raw text matches, and the stored "@b.co" does not | validate the stripped value that is stored, as ui/register_window.py:204 does | not executed | ProfileWindow.EmailComEspacoAceito | ProfileWindow.ValidarPerfil |
