# A verified model of a casino backend's games and ledgers

This project models, in Dafny, the core of a FastAPI casino backend. Players hold a balance (`saldo`), play minigames against the house, and move money in and out through requests an administrator approves. Every game handler has the same shape: validate the stake, debit the balance, resolve an outcome from a random draw, and credit a payout. The model makes each handler a deterministic transition. The random draw (a card, a die, a reel, a mine layout, a crash point, a lottery pick) is a parameter.

Modules follow the source files:

- `Wrappers`: `Option`, and `Result`, whose error carries the HTTP status code the handler raises.
- `Modelos`: the database rows as datatypes, and class `Db`, the ORM session, holding one map from id to row per table. `ConSaldo` changes one user's balance.
- `Texto`: the string helpers the handlers use: `lower` on ASCII capitals, `strip` on all of Python's white space.
- `Redondeo`: rounding half to even. Decimal's `quantize` and Python's `round(x, 2)` both use it, here on reals.
- Single-shot games: `Dados`, `CaraOSello`, `Ruleta`, `CartaMayor`, `PiedraPapelTijera`, `Tragamonedas`, `Tragamonedas2`, `RuletaEuropea`. Each handler is a method on `Db` that is proved against the paytable functions. The probability endpoints are counting loops, proved against closed-form counts.
- Multi-step games, each with its in-memory session store as a class:
  - `Aviator`: the crash game.
  - `Blackjack`.
  - `Minas`: a board of cells updated in place, with a recursive flood fill.
  - `Cascadas`: a match-3 grid held in an `array2`, with run detection, clearing, gravity and the cascade loop.
  - `Poker`: the deck and hand evaluation.
  - `PokerMesa`: the heads-up table. Classes `Jugador`, `Mesa` and `Sesion` are mutated by the betting, street and showdown logic.
- Ledgers and workflows:
  - `Transacciones`: deposit and withdrawal requests, PENDIENTE to APROBADO or RECHAZADO.
  - `Vip`: the ticket-weighted draw and its scheduler.
  - `Referidos`, `Bonus`, `Auth`, `Admin` and `Crud`: referral earnings, the daily bonus, registration, and the administrator's verification chain.

Money is `real` where the source stores a `Decimal` and `int` where it computes with integers. Time is integer (or real) seconds passed in as a parameter. A handler that raises before `db.commit()` returns `Err` and changes nothing. Where the source is wrong, the main model keeps the behaviour as written when that behaviour is what the program does, such as a `KeyError` in a payout table. The "## Findings" table lists the defects for which the model also carries a corrected definition, with a lemma that shows the difference. The poker handlers (`PokerMesa.RealizarAccion`, `Actuar`, `Retiro`, `ResolverShowdown`, `Rendirse`) take a `Liquidacion`: `TalCual` makes the credits the source makes, `Corregida` the ones that also return the unbet chips of the buy-in debited at the start.

## Model

| member | source | states |
|---|---|---|
| Texto.MinusculasSinMayusculas | app/services/juegos/piedrapapeltijera.py:54 | lower-casing a string with no ASCII capital returns it unchanged, so every key the handlers compare against is a fixed point of `lower()` |
| Texto.QuitarIzquierda | app/services/transacciones.py:380 | the left strip is a suffix of the input, starts with a non-blank character or is empty, and everything removed is white space |
| Texto.QuitarDerecha | app/services/transacciones.py:380 | the right strip is a prefix of the input, ends with a non-blank character or is empty, and everything removed is white space |
| Texto.Recortar | app/services/transacciones.py:380 | `strip()` is an infix of its input whose surroundings are white space, and is empty or has a non-blank character at both ends |
| Texto.RecorteInfijo | app/services/transacciones.py:380 | cutting white space from the left and then from the right leaves such an infix |
| Redondeo.RedondeoPar | app/services/juegos/aviator.py:119 | Decimal's default rounding gives an integer within half a unit of the value |
| Redondeo.RedondeoMonotono | app/services/juegos/aviator.py:119 | rounding never reverses the order of two values |
| Redondeo.RedondeoEntero | app/services/juegos/aviator.py:119 | rounding an integer gives it back |
| Redondeo.CuantizarMonotono | app/services/juegos/aviator.py:119 | `quantize` never reverses the order of two values |
| Redondeo.CuantizarExacto | app/services/juegos/aviator.py:119 | a value with no more decimals than the quantum allows quantizes to itself |
| Redondeo.CuantizarCadena | app/services/juegos/aviator.py:119 | `quantize` keeps a chain of four ordered values ordered |
| Redondeo.CuantizarIdempotente | app/services/juegos/aviator.py:119 | quantizing a quantized value changes nothing |
| Redondeo.CuantizarCerca | app/services/juegos/aviator.py:119 | a quantized value lies within half a quantum of the value |
| Redondeo.Porcentaje | app/services/juegos/cartamayor.py:158-160 | `round(n / total * 100, 2)` lies within half a hundredth of the exact percentage |
| Redondeo.PorcentajeExacto | app/services/juegos/cartamayor.py:158-160 | the rounded percentage is `c / 100` whenever `c` hundredths are less than half a hundredth from the exact one |
| CaraOSello.ResultadoCoherente | app/services/juegos/caraosello.py:54-63 | on a valid choice, the reported face is always `cara` or `sello` (a `perdiste` draw is turned into the other face), and the player won exactly when that face is the one chosen |
| CaraOSello.UnaDeTres | app/services/juegos/caraosello.py:54-59 | of the three equally likely draws only one wins, whatever the choice: the game pays 1 time in 3, not 50/50 |
| CaraOSello.JugarCaraSello | app/services/juegos/caraosello.py:12-84 | 404 for a missing user, 400 for a choice that is not `cara`/`sello` after lower-casing, 400 for a bet under 50 or above the balance (and then nothing changes); otherwise the balance moves by +apuesta on a win and -apuesta on a loss, and the response carries the face, the outcome, the 2x prize and the new balance |
| CartaMayor.ValoresCompletos | app/services/juegos/cartamayor.py:11-25 | `VALORES_CARTAS` has a name for exactly the values 1..13, so the handler's lookups never fail |
| CartaMayor.TopeUsuario | app/services/juegos/cartamayor.py:69-78 | under each `filtro` the player's card is drawn from 1..7, 1..10 or 1..13 |
| CartaMayor.JugarCartaMayor | app/services/juegos/cartamayor.py:28-127 | 404 for a missing user, 400 for a bet under 100 or above the balance, and then nothing changes; otherwise the balance moves by +apuesta (win), -apuesta (loss) or 0 (tie, the bet comes back) and the response reports the comparison, the 2x prize and both cards |
| CartaMayor.DebajoCerrada | app/services/juegos/cartamayor.py:147-154 | the number of house values of 1..m strictly below the player's value i, in closed form |
| CartaMayor.EncimaCerrada | app/services/juegos/cartamayor.py:147-154 | the number of house values of 1..m strictly above the player's value i, in closed form |
| CartaMayor.GanadasPerdidasCerradas | app/services/juegos/cartamayor.py:143-154 | over player values 1..n and house values 1..m, n <= m, the player's card is higher in n(n-1)/2 outcomes and the house's in mn - n(n+1)/2 |
| CartaMayor.VentajaDeLaCasa | app/services/juegos/cartamayor.py:69-99 | with the player's card limited by `filtro` the chances are not even: under `filtro` 1 the player wins 21 of 91 outcomes and loses 63, under 2 wins 45 of 130 and loses 75, and only under 3 is it 78 against 78 |
| CartaMayor.ContarFila | app/services/juegos/cartamayor.py:148-154 | for a player's value i the inner loop counts i - 1 wins, 13 - i losses and one tie |
| CartaMayor.ContarCombinaciones | app/services/juegos/cartamayor.py:143-154 | the nested loops count 78 player wins, 78 house wins and 13 ties over the 169 pairs |
| CartaMayor.ObtenerProbabilidades | app/services/juegos/cartamayor.py:130-168 | the response has 169 combinations split 78 / 78 / 13, which add up to the total, and the percentages rounded to two decimals, 46.15, 46.15 and 7.69, which add up to 99.99 |
| Dados.PremioSoloDobles | app/services/juegos/dados.py:55-67 | for a positive bet there is a prize exactly on doubles, and no double pays more than double six |
| Dados.FilaUnDoble | app/services/juegos/dados.py:60-67 | among throws (d1, 1..n) only the double (d1, d1) pays, when d1 <= n |
| Dados.TablaSinSeis | app/services/juegos/dados.py:64-67 | the throws with both dice in 1..n, for n <= 5, pay 5 bets per double |
| Dados.RetornoEsperado | app/services/juegos/dados.py:11-15 | over the 36 equally likely throws the prizes add up to 35 bets: on average the game returns 35/36 of the stake |
| Dados.LanzarDados | app/services/juegos/dados.py:28-81 | 400 for a bet not in `APUESTAS_PERMITIDAS`, 404 for a missing user, 400 for a balance below the bet, and then nothing changes; otherwise the balance ends at the old one minus the bet plus the prize (10x on double six, 5x on another double), which the response reports with the dice and the outcome type |
| PiedraPapelTijera.Buscar | app/services/juegos/piedrapapeltijera.py:13-32 | a lookup in `OPCIONES` that succeeds finds the option whose key is exactly the string looked up |
| PiedraPapelTijera.BuscarClave | app/services/juegos/piedrapapeltijera.py:13-32 | every option is found under its own key |
| PiedraPapelTijera.CicloDeTres | app/services/juegos/piedrapapeltijera.py:13-32 | piedra beats tijera, papel beats piedra, tijera beats papel; each option beats exactly one and is beaten by exactly one, never itself; `es_vencido_por` is the converse of `vence_a`; the relation is antisymmetric; every option has a key |
| PiedraPapelTijera.Ronda | app/services/juegos/piedrapapeltijera.py:82-96 | the comparison on the choice as sent fails (KeyError) exactly when the choice is not a key, and otherwise agrees with the outcome of the named option against the machine's |
| PiedraPapelTijera.JugarPiedraPapelTijera | app/services/juegos/piedrapapeltijera.py:34-117 | 404 for a missing user, 400 when the lower-cased choice is not an option, 400 for a bet under 100 or above the balance, 500 when the choice passes validation only once lower-cased (the raw-key lookup fails before commit), and then nothing changes; otherwise the balance moves by +apuesta, -apuesta or 0 as the choice beats, loses to or ties the machine's |
| PiedraPapelTijera.FilaEquilibrada | app/services/juegos/piedrapapeltijera.py:137-144 | against each choice of the player one machine choice wins, one loses and one ties |
| PiedraPapelTijera.ContarFila | app/services/juegos/piedrapapeltijera.py:138-144 | the inner loop counts, for one player choice, the machine choices it beats, loses to and ties |
| PiedraPapelTijera.ObtenerProbabilidades | app/services/juegos/piedrapapeltijera.py:119-157 | the nine pairs of choices split three wins, three losses and three ties, each 33.33 percent once rounded to two decimals |
| Ruleta.Casilla | app/services/juegos/ruleta.py:14-54 | the wheel has 39 slots: Mega at 0, Gran at 1-2, Doble at 3-6, Free at 7 and Sin Premio after |
| Ruleta.Composicion | app/services/juegos/ruleta.py:14-54 | the wheel holds 1 Mega, 2 Gran, 4 Doble, 1 Free and 31 Sin Premio slots |
| Ruleta.Multiplicadores | app/services/juegos/ruleta.py:13-82 | every multiplier is 10, 5, 2 or 0, the Free slot leaves the balance as it was, and over one turn of the whole wheel the player loses 5000 |
| Ruleta.JugarRuleta | app/services/juegos/ruleta.py:56-92 | 404 for a missing user, 400 for a balance under 500, and then nothing changes; otherwise the slot's net (costless on Free, 500 times the multiplier minus the cost otherwise) is applied and reported |
| Ruleta.Cobrar | app/services/juegos/ruleta.py:77-82 | the balance moves by the net of the slot and the reported win is the stake times a positive multiplier, or nothing |
| Tragamonedas.ProbabilidadDePremio | app/services/juegos/tragamonedas.py:69-76 | the chance of a prize is 0.30, or 0.35 from a bet of 2000 on: the 5000 bonus is shadowed by the first test and never applied |
| Tragamonedas.PrimeraSinPremio | app/services/juegos/tragamonedas.py:92-96 | the redraw loop stops at the first draw that is not three of a kind, every earlier draw being three of a kind |
| Tragamonedas.JugarTragamonedas | app/services/juegos/tragamonedas.py:46-118 | 400 for a bet not permitted, 404 for a missing user, 400 for a balance below the bet, and then nothing changes; otherwise the balance moves by prize minus bet; under the prize probability the reels show three of the chosen symbol and the prize is its multiplier times the bet, otherwise the reels are the first non-triple draw and the prize is 0 |
| Tragamonedas2.PagoCreciente | app/services/juegos/tragamonedas2.py:33-44 | every symbol pays for runs of 3, 4 and 5, strictly more for a longer run, and nothing for any other length |
| Tragamonedas2.FilaDeLinea | app/services/juegos/tragamonedas2.py:47-67 | each payline cell of column k is in one of the three rows |
| Tragamonedas2.LineaEnTablero | app/services/juegos/tragamonedas2.py:47-67 | every one of the ten paylines visits only cells of the 5x3 board |
| Tragamonedas2.SimbolosEnPorCelda | app/services/juegos/tragamonedas2.py:79-84 | the symbols of a line are as many as its cells, and entry k is the symbol at column `linea[k].0`, row `linea[k].1` |
| Tragamonedas2.ObtenerSimbolosEnLinea | app/services/juegos/tragamonedas2.py:79-84 | the loop collects exactly the symbols of the line's cells, in order |
| Tragamonedas2.Bloque | app/services/juegos/tragamonedas2.py:92-105 | the block of equal symbols starting at i is at least one symbol long and stays within the line |
| Tragamonedas2.BloqueUniforme | app/services/juegos/tragamonedas2.py:95-105 | a block holds a single symbol and is followed by the end of the line or a different symbol |
| Tragamonedas2.BloqueExacto | app/services/juegos/tragamonedas2.py:95-105 | a run of n equal symbols not followed by the same symbol is a block of exactly n |
| Tragamonedas2.Corrida | app/services/juegos/tragamonedas2.py:92-106 | the run the scan stops at, from position i on, is at least three long |
| Tragamonedas2.BloqueCortoSinTrio | app/services/juegos/tragamonedas2.py:100-105 | no three equal symbols in a row start inside a block shorter than three, so the restart loses no run |
| Tragamonedas2.CorridaNinguna | app/services/juegos/tragamonedas2.py:92-106 | from a block start the scan finds no run exactly when no three equal symbols stand in a row from there on |
| Tragamonedas2.CorridaEncontrada | app/services/juegos/tragamonedas2.py:92-106 | a run the scan finds is a whole block of that symbol and length at a later block start, with no three in a row before it |
| Tragamonedas2.EvaluarPaga | app/services/juegos/tragamonedas2.py:86-118 | `evaluar_combinacion` pays exactly when three equal symbols stand in a row somewhere on the line (not only from the first reel), and then pays the table entry for the symbol and the run length capped at five, which is positive; otherwise it returns the no-prize result |
| Tragamonedas2.EvaluarPrimeraCorrida | app/services/juegos/tragamonedas2.py:92-116 | the paying run is the first block of at least three equal symbols on the line; the paid length is its length capped at five |
| Tragamonedas2.EvaluarCombinacion | app/services/juegos/tragamonedas2.py:86-118 | the scan loop computes exactly the evaluation of the line |
| Tragamonedas2.CerrarBloque | app/services/juegos/tragamonedas2.py:95-105 | a closed block of n equal symbols is the run when n >= 3 and is skipped otherwise |
| Tragamonedas2.Lecturas | app/services/juegos/tragamonedas2.py:187-189 | the readings of the first n paylines are n lines |
| Tragamonedas2.LecturasPorLinea | app/services/juegos/tragamonedas2.py:188-189 | reading l is the symbols of payline l |
| Tragamonedas2.Detalles | app/services/juegos/tragamonedas2.py:205-209 | `detalles_lineas` has one entry per active line |
| Tragamonedas2.SumaGananciasConcat | app/services/juegos/tragamonedas2.py:194-203 | appending at most one winning entry adds its prize to the sum |
| Tragamonedas2.LineaAporta | app/services/juegos/tragamonedas2.py:192-209 | with a positive bet a payline adds nothing or a positive prize; it pays exactly when it has three equal symbols in a row, and then it adds one winning entry carrying that prize |
| Tragamonedas2.ProductoPositivo | app/services/juegos/tragamonedas2.py:193 | a payline prize is multiplier times bet, positive when both are |
| Tragamonedas2.GanadorasPagan | app/services/juegos/tragamonedas2.py:192-203 | there are no more winning entries than lines, and every one pays |
| Tragamonedas2.GanadorasSuman | app/services/juegos/tragamonedas2.py:192-203 | `ganancia_total` is the sum of the prizes of `lineas_ganadoras` |
| Tragamonedas2.HayPremio | app/services/juegos/tragamonedas2.py:187-222 | the total prize is never negative, and it is positive exactly when some active line shows three equal symbols in a row, which is exactly when the winning list is non-empty |
| Tragamonedas2.EvaluarLineas | app/services/juegos/tragamonedas2.py:183-209 | the loop over the active paylines computes the total prize, the winning entries and the per-line details of the specification |
| Tragamonedas2.EvaluarLinea | app/services/juegos/tragamonedas2.py:188-209 | one iteration computes the line's prize, its winning entry (if any) and its detail |
| Tragamonedas2.SiguienteLinea | app/services/juegos/tragamonedas2.py:187-209 | one more line adds its prize to the total, its winning entry to the list and its detail to the details |
| Tragamonedas2.TranspuestaPorCelda | app/services/juegos/tragamonedas2.py:224-230 | the grid sent to the frontend has 3 rows of 5 and cell (row, col) is `reels[col][row]` |
| Tragamonedas2.Transponer | app/services/juegos/tragamonedas2.py:224-230 | the nested loops build exactly the transpose of the reels |
| Tragamonedas2.Girar | app/services/juegos/tragamonedas2.py:182-230 | the part of the handler between the debit and the credit computes the spin's result of the specification |
| Tragamonedas2.JugarTragamonedas2 | app/services/juegos/tragamonedas2.py:143-247 | 400 for a bet not permitted or a line count outside 1..10, 404 for a missing user, 400 for a balance under bet times lines, and then nothing changes; otherwise the balance moves by total prize minus total stake, and the response reports the spin, the stakes and the new balance |
| RuletaEuropea.ColorDe | app/services/juegos/ruletaeuropea.py:43-45 | the zero, and any number outside the table, is green |
| RuletaEuropea.ParejaDelPano | app/services/juegos/ruletaeuropea.py:15-22 | pockets 2j - 1 and 2j are never green and have different colours (as the colour table lists them) |
| RuletaEuropea.PanoEmparejado | app/services/juegos/ruletaeuropea.py:15-22 | the colour table pairs every odd pocket with the next even one in opposite colours |
| RuletaEuropea.CuentaPorParejas | app/services/juegos/ruletaeuropea.py:15-22 | in a paired table the pockets 0..2j contain j red, j black and one green |
| RuletaEuropea.ColoresDelPano | app/services/juegos/ruletaeuropea.py:15-22 | the table covers the 37 pockets: one green (the zero), 18 red and 18 black |
| RuletaEuropea.ParidadYMitades | app/services/juegos/ruletaeuropea.py:47-65 | zero is neither even, odd, low nor high; every other pocket is exactly one of even/odd and exactly one of low/high |
| RuletaEuropea.Docena | app/services/juegos/ruletaeuropea.py:67-76 | the dozen is 0..3 and is 0 exactly for the zero |
| RuletaEuropea.DocenaPorDivision | app/services/juegos/ruletaeuropea.py:67-76 | for 1..36 the dozen is (n - 1) / 12 + 1 |
| RuletaEuropea.Columna | app/services/juegos/ruletaeuropea.py:78-99 | the column is 0..3 |
| RuletaEuropea.ColumnasAritmeticas | app/services/juegos/ruletaeuropea.py:88-90 | the listed columns have 12 pockets each, column c holding c, c + 3, ..., c + 33 |
| RuletaEuropea.ColumnaPorResto | app/services/juegos/ruletaeuropea.py:78-99 | for 1..36 the column is (n - 1) mod 3 + 1 |
| RuletaEuropea.Multiplicador | app/services/juegos/ruletaeuropea.py:25-204 | the multiplier lookup succeeds exactly for the straight-up, even/odd, low/high, dozen and column kinds: the colour entry misspells its key and split/street/corner/line have no entry |
| RuletaEuropea.Evaluar | app/services/juegos/ruletaeuropea.py:154-221 | a bet is recorded as a winner exactly when it hits the pocket drawn, with winnings of the stake times the kind's multiplier; it raises (500) exactly on a winning colour bet, a winning split/street/corner/line bet, or such a bet whose value is not a list |
| RuletaEuropea.EvaluarFalla | app/services/juegos/ruletaeuropea.py:154-205 | one iteration raises exactly on a winning colour bet, on a winning split/street/corner/line bet, or on such a bet whose value is not a list; an unknown kind always loses; otherwise the bet wins exactly when it hits |
| RuletaEuropea.Pagos | app/services/juegos/ruletaeuropea.py:161-197 | a straight-up bet pays 35 times the stake on its number, a dozen or column bet twice on its third, and even or high bets twice on those pockets; otherwise they lose |
| RuletaEuropea.SumaGananciasUltimo | app/services/juegos/ruletaeuropea.py:207-214 | appending a winning entry adds its winnings to the sum |
| RuletaEuropea.ResolverFalla | app/services/juegos/ruletaeuropea.py:154-221 | the payout loop raises exactly when one of the bets raises |
| RuletaEuropea.ResolverCompleto | app/services/juegos/ruletaeuropea.py:150-221 | a completed loop records every bet once, as a winner or a loser, losers with 0, and `ganancia_total` is the sum of the winners' winnings |
| RuletaEuropea.ResolverNoNegativo | app/services/juegos/ruletaeuropea.py:128-221 | with every stake at least 10 the total winnings of a completed loop are not negative |
| RuletaEuropea.ResolverApuestas | app/services/juegos/ruletaeuropea.py:150-221 | the loop computes the result of the payout specification, failing as it fails |
| RuletaEuropea.PrefijoFallido | app/services/juegos/ruletaeuropea.py:154-221 | once a prefix of the bets raises the whole loop raises |
| RuletaEuropea.JugarRuletaEuropea | app/services/juegos/ruletaeuropea.py:103-244 | 404 for a missing user, 400 for no bets, 400 for a stake under 10, 400 for a balance below the total staked; 500 exactly when the payout loop raises; on every error nothing changes; otherwise the balance moves by winnings minus total staked and the response reports the pocket and the loop's result |
| RuletaEuropea.AciertosPleno | app/services/juegos/ruletaeuropea.py:257-258 | among pockets 0..k-1 a straight-up bet on v wins once if v is among them |
| RuletaEuropea.AciertosDocena | app/services/juegos/ruletaeuropea.py:260-261 | the pockets 0..k-1 in dozen d, in closed form |
| RuletaEuropea.ColumnasDeFila | app/services/juegos/ruletaeuropea.py:88-99 | pockets 3j+1, 3j+2 and 3j+3 are in columns 1, 2 and 3 |
| RuletaEuropea.AciertosColumna | app/services/juegos/ruletaeuropea.py:260-261 | every row of three pockets adds one winning pocket for each column bet |
| RuletaEuropea.AciertosPar | app/services/juegos/ruletaeuropea.py:263-264 | the even and odd pockets among 0..k-1, in closed form |
| RuletaEuropea.AciertosMitades | app/services/juegos/ruletaeuropea.py:263-264 | the low and high pockets among 0..k-1, in closed form |
| RuletaEuropea.AciertosColor | app/services/juegos/ruletaeuropea.py:263-264 | the red (black) pockets among 0..k-1 are those the colour table counts |
| RuletaEuropea.FavorablesPlenoYTercios | app/services/juegos/ruletaeuropea.py:257-262 | the published counts are the true ones: a number wins on 1 pocket of 37, each dozen and each column on 12 |
| RuletaEuropea.FavorablesParImpar | app/services/juegos/ruletaeuropea.py:263-265 | even and odd each win on 18 pockets, as published |
| RuletaEuropea.FavorablesBajoAlto | app/services/juegos/ruletaeuropea.py:263-265 | low and high each win on 18 pockets, as published |
| RuletaEuropea.FavorablesColor | app/services/juegos/ruletaeuropea.py:263-265 | red and black each win on 18 pockets, as published |
| RuletaEuropea.ObtenerProbabilidades | app/services/juegos/ruletaeuropea.py:246-278 | one entry per bet kind in table order with its published probability rounded to two decimals, 37 pockets, and a house edge of one pocket in 37, 2.70 once rounded |
| RuletaEuropea.ProbabilidadesPublicadas | app/services/juegos/ruletaeuropea.py:255-270 | the rounded probabilities are 2.70 for a single number, 32.43 for a dozen or a column and 48.65 for an even-money bet |
| Vip.FichasPorCosto | app/services/vip.py:34-45 | every fee buys at least one ticket |
| Vip.FichasPorNivel | app/services/vip.py:34-45 | the fees 10000, 20000, 50000 and 100000 buy 1, 3, 10 and 25 tickets, each larger fee buying tickets more cheaply; any other fee buys one |
| Vip.ProximoSorteo | app/services/vip.py:27-31 | the next draw is strictly after now, at most a day later, at 12:15 |
| Vip.ProximoSorteoEsElPrimero | app/services/vip.py:27-31 | no 12:15 strictly after now comes before the one computed |
| Vip.ParticiparSorteoVip | app/services/vip.py:210-267 | 400 for a fee that is not a positive number, 404 for a missing user, 400 for a balance below the fee or a user already entered, 500 for a float fee (the Decimal debit raises before commit), and then nothing changes; otherwise the fee is debited and one active entry with its tickets is added |
| Vip.Copias | app/services/vip.py:119-125 | n copies of an id are n entries |
| Vip.OcurrenciasConcat | app/services/vip.py:116-125 | the occurrences of an id in a concatenation add up |
| Vip.OcurrenciasCopias | app/services/vip.py:119-125 | n copies of y contain x n times when x is y and never otherwise |
| Vip.PoolPorFichas | app/services/vip.py:115-131 | with distinct users holding at least one ticket, `lista_para_sorteo` has as many entries as tickets and each user appears exactly as many times as their tickets, so the chance of being drawn is the user's share of tickets |
| Vip.FichasDeGrupo | app/services/vip.py:115-131 | with distinct users, the ticket total found for a group's user is that group's |
| Vip.PoolPorParticipaciones | app/services/vip.py:96-131 | against the grouped query, every user in `usuarios` with an active entry appears in the pool exactly as many times as the tickets of its active entries add up to, and nobody else appears |
| Vip.PoolDeGrupos | app/services/vip.py:115-132 | every id in the pool belongs to one of the grouped rows |
| Vip.CopiasIguales | app/services/vip.py:119-125 | every entry of n copies of x is x |
| Vip.AgregarFichas | app/services/vip.py:119-125 | the inner loop appends n copies of the id (none for a non-positive count) |
| Vip.ConstruirPool | app/services/vip.py:116-125 | the nested loops build exactly the pool of the grouped rows |
| Vip.SinGanadores | app/services/vip.py:139-157 | when no row belongs to the drawn id nobody is listed |
| Vip.GanadorUnico | app/services/vip.py:139-157 | with distinct users the drawn one is listed exactly once, with its balance before and after the 500000 prize and its tickets |
| Vip.CerrarSorteo | app/services/vip.py:173-179 | closing the draw keeps every entry and leaves none active |
| Vip.RealizarSorteo | app/services/vip.py:91-203 | 400 with nothing changed when nobody takes part; otherwise the drawn id is the pool entry picked, it belongs to a taking part user, that user alone gains 500000, every active entry is closed under the new result, and the result row records the winners and counts |
| Vip.Acreditar | app/services/vip.py:139-157 | the loop over the grouped rows credits the drawn user once and lists the winners of the specification |
| Vip.PrimeraAparicion | app/services/vip.py:105-110 | with distinct ids a row's user does not appear in the rows before it |
| Vip.ContieneExtendido | app/services/vip.py:139-140 | a prefix one row longer contains x exactly when the shorter one does or the new row is x's |
| Vip.SoloElGanadorCobra | app/services/vip.py:139-179 | only the drawn user's balance changes, by exactly 500000, and after the draw nobody is entered |
| Vip.Planificador.constructor | app/services/vip.py:23-207 | at import the next draw is the next 12:15 and no draw is in progress |
| Vip.Planificador.VerificarYEjecutar | app/services/vip.py:48-88 | nothing happens while a draw runs or before the scheduled time; with no active entry only the schedule moves; otherwise the draw runs when the grouped query has rows, the schedule moves on unless it raised, and the in-progress flag ends cleared |
| Vip.LimpiarParticipantes | app/services/vip.py:401-416 | every entry is kept but made inactive, and balances are untouched |
| Transacciones.ValidarDeposito | app/services/transacciones.py:194-202 | a deposit request is accepted exactly when 10000 <= monto <= 5000000 and the user is verified or attached a receipt; every refusal is 400 |
| Transacciones.RetiroMaximo | app/services/transacciones.py:359-360 | the cap is above the minimum and at most 5000000, and exactly 1000000 for an unverified user |
| Transacciones.ValidarRetiro | app/services/transacciones.py:358-384 | a withdrawal request is accepted exactly when it is between the minimum and the cap, within the balance, and the stripped account has at least 8 characters; every refusal is 400 |
| Transacciones.RetiroAceptado | app/services/transacciones.py:358-384 | an accepted request is positive, within the balance and the verified cap, at most 1000000 for an unverified user, and whatever an unverified user may ask a verified one may too |
| Transacciones.SiNoVacio | app/services/transacciones.py:396-397 | `x if x else d`: a missing or zero value yields the default, anything else itself |
| Transacciones.RealizarDeposito | app/services/transacciones.py:180-259 | 404 for a missing user, 400 when the validation refuses, and then nothing is stored; otherwise one PENDIENTE deposit with reference DEP + code, the receipt path when one was attached and both dates set to now is added, and the balance is not touched |
| Transacciones.RealizarRetiro | app/services/transacciones.py:342-424 | 404 for a missing user, 400 when the validation refuses, and then nothing is stored; otherwise one PENDIENTE withdrawal with the stripped account, commission or 0 and total or the amount, reference RET + code, is added without debiting the balance |
| Transacciones.AprobarDeposito | app/services/transacciones.py:77-139 | 403 for a non-administrator, 404 for an unknown deposit, 400 for one no longer PENDIENTE, 404 for a missing owner, and then nothing changes; the approval succeeds exactly when none of these holds, and then the deposit becomes APROBADO and its amount is credited to the owner once |
| Transacciones.RechazarDeposito | app/services/transacciones.py:141-178 | 403, 404 or 400 as for approval with nothing changed; otherwise a PENDIENTE deposit becomes RECHAZADO and no balance moves |
| Transacciones.AprobarRetiro | app/services/transacciones.py:508-574 | 403, 404, 400 and 404 as for deposits with nothing changed; otherwise the withdrawal is debited and APROBADO when the balance still covers it, and RECHAZADO with the balance untouched when it does not, so approving never makes a non-negative balance negative |
| Transacciones.RechazarRetiro | app/services/transacciones.py:576-612 | 403, 404 or 400 with nothing changed; otherwise a PENDIENTE withdrawal becomes RECHAZADO and no balance moves |
| Transacciones.DepositosPendientes | app/services/transacciones.py:29-75 | 403 exactly for a non-administrator; otherwise the listing holds exactly the PENDIENTE deposits |
| Transacciones.RetirosPendientes | app/services/transacciones.py:463-506 | 403 exactly for a non-administrator; otherwise the listing holds exactly the PENDIENTE withdrawals |
| Transacciones.MisDepositos | app/services/transacciones.py:265-296 | the caller's listing holds exactly the deposits it owns |
| Transacciones.MisRetiros | app/services/transacciones.py:426-461 | the caller's listing holds exactly the withdrawals it owns |
| Transacciones.DetalleDeposito | app/services/transacciones.py:298-340 | 404 for an unknown id, 403 unless the caller owns it or is the administrator; otherwise the deposit itself |
| Aviator.DuracionAnimacion | app/services/juegos/aviator.py:66-86 | the animation lasts between 0.5 and 60 seconds |
| Aviator.DuracionMonotona | app/services/juegos/aviator.py:66-86 | a higher crash point never gives a shorter flight: the pieces of the curve meet at 1.5 and 500 |
| Aviator.CuadradoMonotono | app/services/juegos/aviator.py:143 | squaring keeps the order of non-negative values |
| Aviator.ProgresoMonotono | app/services/juegos/aviator.py:137-147 | the eased progress grows with the elapsed fraction, stays in [0, 1] and is 1 at the end |
| Aviator.Cociente | app/services/juegos/aviator.py:137 | dividing by a positive duration keeps the order |
| Aviator.FraccionMonotona | app/services/juegos/aviator.py:137 | the elapsed fraction, capped at 1, grows with the time and is 1 from the end of the animation on |
| Aviator.Escalar | app/services/juegos/aviator.py:149 | multiplying by a non-negative span keeps the order |
| Aviator.Fracciones | app/services/juegos/aviator.py:149 | a fraction of a non-negative span lies between 0 and the span, and the whole fraction is the span |
| Aviator.Interpolacion | app/services/juegos/aviator.py:149-150 | moving from 1 towards the crash point and quantizing grows with the progress, stays within [1, crash] and reaches the quantized crash point at progress 1 |
| Aviator.CurvaDeVuelo | app/services/juegos/aviator.py:125-150 | during a flight the multiplier never decreases, stays between 1 and the quantized crash point, and equals it from the end of the animation on |
| Aviator.TablaDeProbabilidades | app/services/juegos/aviator.py:25-41 | ten ranges with positive percentages adding up to 100, the first 30, and range tops strictly increasing from 1 to 500 |
| Aviator.AcumuladoCrece | app/services/juegos/aviator.py:95-99 | the cumulative percentage never decreases along the table |
| Aviator.PrimerTramo | app/services/juegos/aviator.py:95-99 | the range the loop stops at is within the table, from the start position on |
| Aviator.TramoPorAcumulado | app/services/juegos/aviator.py:93-99 | the draw falls in range k exactly when it lies between the cumulative percentages before and through k, so each range is chosen with its own percentage |
| Aviator.TramoEncontrado | app/services/juegos/aviator.py:96-122 | the loop only runs off the table (the fallback) when the draw is not below the total |
| Aviator.IntermedioEntre | app/services/juegos/aviator.py:118 | a point a fraction of the way between two bounds lies between them |
| Aviator.Entre | app/services/juegos/aviator.py:118-119 | between two two-decimal bounds the quantized intermediate point stays between them and has two decimals |
| Aviator.CrashEnTramo | app/services/juegos/aviator.py:105-119 | a range after the first gives a two-decimal value between its bounds, themselves within [1, 500] |
| Aviator.CrashEnRango | app/services/juegos/aviator.py:89-122 | for a draw in [0, 100) the loop always finds a range (the fallback is unreachable), the first exactly when the draw is below 30, and the crash point lies in its range, within [1, 500], with two decimals |
| Aviator.GenerarMultiplicadorCrash | app/services/juegos/aviator.py:89-122 | the loop over the cumulative percentages computes the crash point of the specification |
| Aviator.Sesiones.constructor | app/services/juegos/aviator.py:13 | the session table starts empty |
| Aviator.Vigentes | app/services/juegos/aviator.py:153-162 | a sweep at time now keeps exactly the sessions at most one hour old, unchanged |
| Aviator.LimpiarSesionesExpiradas | app/services/juegos/aviator.py:153-162 | the two loops (collect the expired ids, then delete them) leave exactly the surviving sessions |
| Aviator.ObtenerSesionAsegurada | app/services/juegos/aviator.py:165-177 | 404 for an unknown id, 403 for another user's session, otherwise the session itself |
| Aviator.IniciarVuelo | app/services/juegos/aviator.py:223-292 | 422 below 1 with nothing swept, 400 for a stake not permitted, 404 for a missing user, 400 for a balance below the stake, and then the balance is untouched and only the sweep happened; otherwise the stake is debited and a new flight with the drawn crash point is stored under the new id |
| Aviator.HacerCashout | app/services/juegos/aviator.py:294-362 | 422 for a multiplier outside [1, 500]; after the sweep 404, 403 and 400 for an unknown, foreign or finished flight, and 404 for a missing user row, with no balance change; the cashout succeeds exactly when none of these holds; at or past the crash point the flight explodes and nothing is credited; below it the flight ends in cashout and stake times multiplier is credited |
| Aviator.SondeoDe | app/services/juegos/aviator.py:364-442 | a poll records the current multiplier, explodes the flight when it reached the crash point, leaves a finished flight as it is, and fires the auto-retire only for a live flight that did not explode whose multiplier reached the mark, cashing out at the mark |
| Aviator.VerificarEstado | app/services/juegos/aviator.py:364-442 | after the sweep 404 and 403 as for cashout with nothing changed; otherwise the session is updated as the poll says and only a fired auto-retire credits stake times the mark |
| Aviator.ConfigurarAutoretiro | app/services/juegos/aviator.py:444-475 | 422 for a mark outside [1.1, 500]; 404, 403 and 400 for an unknown, foreign or finished flight with nothing changed; otherwise only the auto-retire flag and mark change |
| Aviator.VueloTerminado | app/services/juegos/aviator.py:294-475 | a flight pays at most once: once out of flight no auto-retire fires and a poll keeps its state and its cashout multiplier |
| Minas.ConfigDe | app/services/juegos/minas.py:19-23 | the three difficulties: sides 5, 6 and 7, with fewer mines than cells; any other name is unknown |
| Minas.MinasCercanasCero | app/services/juegos/minas.py:84-97 | the neighbour count is at most the number of directions looked at, and zero exactly when none of those neighbours holds a mine |
| Minas.MinasCercanasMismas | app/services/juegos/minas.py:84-97 | the count depends only on where the mines are |
| Minas.ContarMinasCercanas | app/services/juegos/minas.py:84-97 | the loop over the eight directions counts the in-board neighbours that are mines |
| Minas.TableroSinCuentas | app/services/juegos/minas.py:60-74 | the first pass builds a square board whose cell (i, j) is a mine exactly when position i * n + j was drawn, closed, unflagged, count 0 |
| Minas.GenerarTablero | app/services/juegos/minas.py:51-82 | the board marks the drawn positions as mines and gives every other cell its neighbour count |
| Minas.CoordenadasCard | app/services/juegos/minas.py:57-65 | distinct drawn positions are distinct cells |
| Minas.Inyectiva | app/services/juegos/minas.py:63 | two different positions never give the same row and column |
| Minas.DivMod | app/services/juegos/minas.py:63 | row and column are recovered from the position i * n + j |
| Minas.DivModInversa | app/services/juegos/minas.py:63 | every position below n * n is the position of exactly the cell (p / n, p % n) |
| Minas.MinasExactas | app/services/juegos/minas.py:37-57 | the generated board holds exactly `minas_totales` mines |
| Minas.MinasEnPosiciones | app/services/juegos/minas.py:57-65 | every mine of the board comes from a drawn position |
| Minas.PosicionesEnMinas | app/services/juegos/minas.py:57-65 | every drawn position is a mine of the board |
| Minas.PosicionEnMinas | app/services/juegos/minas.py:63-64 | one drawn position is a mine at its row and column |
| Minas.AvanceTransitivo | app/services/juegos/minas.py:162-181 | two steps of the flood fill compose: only closed, unflagged safe cells get opened, and closed cells never increase |
| Minas.CubiertaAvanza | app/services/juegos/minas.py:162-181 | a cell already dealt with by the flood fill stays dealt with as it goes on |
| Minas.CerradoTransitivo | app/services/juegos/minas.py:162-181 | the flood fill only passes through zero cells: that property composes over two steps |
| Minas.AbrirUna | app/services/juegos/minas.py:162-175 | opening one closed, unflagged safe cell and listing it keeps the board and lists consistent, strictly lowers the closed cells and is a step of the flood fill |
| Minas.AbrirUnaConsistente | app/services/juegos/minas.py:170-175 | opening and listing a new safe cell keeps the lists of open cells exact |
| Minas.AbrirUnaAvanza | app/services/juegos/minas.py:170-175 | opening a safe cell is a flood-fill step with strictly fewer closed cells |
| Minas.PasoVecino | app/services/juegos/minas.py:176-181 | each neighbour visited keeps the facts of the loop over the eight directions |
| Minas.CaminoAvanza | app/services/juegos/minas.py:162-181 | a path through cells the flood may cross on a later board was one on the earlier board too |
| Minas.CaminoDesde | app/services/juegos/minas.py:176-181 | a path from a neighbour of a zero cell extends to a path from that cell |
| Minas.RegionUna | app/services/juegos/minas.py:170-172 | opening the start cell opens only cells of its region |
| Minas.PasoRegion | app/services/juegos/minas.py:180-181 | the flood from one more neighbour opens only cells reachable from the cell's neighbours |
| Minas.RegionTrasVecinos | app/services/juegos/minas.py:176-181 | after every neighbour of a zero cell is flooded, only cells of that cell's region are open |
| Minas.AlcanzableDesdeVecino | app/services/juegos/minas.py:176-181 | a cell reachable from a neighbour once the zero cell is open is reachable from the zero cell |
| Minas.CaminoAbierto | app/services/juegos/minas.py:162-181 | a finished flood has opened the end of every path from its start |
| Minas.RegionAbierta | app/services/juegos/minas.py:162-181 | every cell of the region was closed and is open after the flood |
| Minas.InundadoEs | app/services/juegos/minas.py:162-181 | a flood that opens exactly the region leaves the board `Inundado` describes |
| Minas.ElementosSinRepetidos | app/services/juegos/minas.py:171-172 | a list without repeats has as many elements as its set |
| Minas.AbiertasRegion | app/services/juegos/minas.py:171-172 | the list of open cells gains exactly the cells of the region |
| Minas.AbrirMina | app/services/juegos/minas.py:117-121 | opening a mine leaves the lists as they are and the board consistent |
| Minas.CerradoTrasVecinos | app/services/juegos/minas.py:176-181 | after a zero cell's neighbours are all handled the whole step only passed through zero cells |
| Minas.GananciaCrece | app/services/juegos/minas.py:134-136 | before any cell is open the gain is the stake; more safe cells never lower it |
| Minas.Quitar | app/services/juegos/minas.py:198 | `list.remove` shortens the list by one exactly when the cell was there |
| Minas.QuitarSinRepetidos | app/services/juegos/minas.py:198 | on a list without repeats `remove` drops exactly that cell and keeps no repeats |
| Minas.MarcarConsistente | app/services/juegos/minas.py:183-200 | toggling a closed cell's flag and updating the list as the source does keeps board and lists consistent, and the flag was set exactly when the cell was listed |
| Minas.AlternarAbiertas | app/services/juegos/minas.py:183-200 | toggling a flag on a closed cell leaves the open cells and their list untouched and never flags an open cell |
| Minas.Marcar | app/services/juegos/minas.py:194-195 | flagging an unflagged cell appends a cell not yet listed |
| Minas.Desmarcar | app/services/juegos/minas.py:197-198 | unflagging removes a listed cell |
| Minas.ConsistenteInicial | app/services/juegos/minas.py:41-44 | a freshly generated board with empty lists is consistent |
| Minas.RevelarMinas | app/services/juegos/minas.py:380-384 | revealing opens every mine and changes nothing else |
| Minas.JuegoMinas.constructor | app/services/juegos/minas.py:29-49 | the board of the drawn positions with exactly `minas_totales` mines, nothing open or flagged, the gain at the stake, the multiplier 1 |
| Minas.JuegoMinas.AbrirRecursiva | app/services/juegos/minas.py:162-181 | off-board, open, flagged and mine cells are left alone; otherwise the board opens exactly the cells reachable from (x, y) through closed, unflagged, safe cells, passing on only from zero cells, and nothing else; the list grows, strictly when the cell itself was opened; consistency is kept |
| Minas.JuegoMinas.AbrirVecinos | app/services/juegos/minas.py:176-181 | the loop over the eight directions handles every neighbour and opens only cells reachable from one of them, keeping consistency |
| Minas.JuegoMinas.AbrirVecino | app/services/juegos/minas.py:180-181 | one pass of that loop: the flood from the neighbour in direction d keeps the loop's facts for one more direction |
| Minas.JuegoMinas.AbrirCasilla | app/services/juegos/minas.py:99-160 | game over, off-board, open or flagged cells are ValueError with nothing changed; a mine opens that cell only, ends the game and zeroes the gain; a safe cell opens exactly its flood region, the list gains exactly that region, the multiplier and gain follow the listed cells, the game is won exactly when every safe cell is listed, and the answer reports the count and the newly opened cells |
| Minas.JuegoMinas.AbrirSegura | app/services/juegos/minas.py:131-160 | the safe branch: the board becomes the flood of (x, y) and the list gains exactly its region, multiplier and gain follow the number of open cells, the game is won exactly when every safe cell is open, and the answer is the one the source builds |
| Minas.JuegoMinas.Inundar | app/services/juegos/minas.py:131 | the flood from a closed, unflagged safe cell opens exactly its region and the list gains exactly as many cells as the region has |
| Minas.JuegoMinas.Cobrar | app/services/juegos/minas.py:132-160 | after the flood: the multiplier and gain follow the listed cells, the game is won and over exactly when every safe cell is listed, and the answer reports the newly opened cells unless won |
| Minas.JuegoMinas.MarcarCasilla | app/services/juegos/minas.py:183-200 | off the board is ValueError; an open cell answers false with nothing changed; otherwise the flag toggles, the list gains or loses the cell and the answer is the new flag |
| Minas.JuegoMinas.AlternarMarca | app/services/juegos/minas.py:190-200 | the flag toggle on a closed cell with its list update |
| Minas.JuegoMinas.Retirarse | app/services/juegos/minas.py:202-208 | retiring from a finished game is ValueError; otherwise the game ends and pays the gain of the open cells |
| Minas.Sesiones.constructor | app/services/juegos/minas.py:26 | the table of games in progress starts empty |
| Minas.SinJuegosDe | app/services/juegos/minas.py:242-245 | the table keeps exactly the games of other users, unchanged |
| Minas.LimpiarJuegosDe | app/services/juegos/minas.py:242-245 | the loop drops every game of the caller and nothing else |
| Minas.IniciarMinas | app/services/juegos/minas.py:231-294 | after the caller's games are dropped: 400 for an unknown difficulty or a stake under 100, 404 for a missing user, 400 for a short balance, with the balance untouched; otherwise the stake is debited and a fresh game over the drawn positions is stored |
| Minas.AbrirCasillaSesion | app/services/juegos/minas.py:296-427 | 404, 403, then the game's ValueError as 400 with nothing changed; a win pays the gain and drops the session; a mine reveals every mine and drops the session; a safe cell keeps the session; each answer carries the cell's count, the gain, the newly opened cells and the balance as the source reports them, and 500 when the user row is gone; on a safe cell the game's board is the flood of the cell, its list gains exactly the region, and multiplier and gain follow the listed cells |
| Minas.MarcarCasillaSesion | app/services/juegos/minas.py:429-456 | 404, 403 with nothing changed, then the game's own answer for the flag: the board toggles the flag, the flag list gains or loses the cell, and the open cells, the end flags, the gain and the multiplier are unchanged |
| Minas.RetirarseSesion | app/services/juegos/minas.py:458-520 | 404, 403, 400 for a finished game; then the game ends, its gain is credited and the session dropped |
| Minas.CancelarJuego | app/services/juegos/minas.py:522-544 | 404, 403; otherwise the session is dropped with no refund and the lost stake is reported |
| Blackjack.BarajaOrdenada | app/services/juegos/blackjack.py:61-71 | the deck built before the shuffle has 52 cards |
| Blackjack.BarajaDistinta | app/services/juegos/blackjack.py:66-71 | the 52 cards of the deck are pairwise distinct |
| Blackjack.BarajaCubre | app/services/juegos/blackjack.py:66-71 | every suit comes with every name, at that name's value |
| Blackjack.BarajaValida | app/services/juegos/blackjack.py:66-71 | the deck holds nothing else: aces at 11, every other card worth 2 to 10, of one of the four suits |
| Blackjack.Rebajas | app/services/juegos/blackjack.py:88-91 | the number of aces dropped to 1 never exceeds the aces of the hand |
| Blackjack.PuntajeOptimo | app/services/juegos/blackjack.py:76-92 | the score is a valuation of the hand between the hard and the all-aces-high totals; it is the best valuation reaching 21 or less when one exists, and the hard total otherwise |
| Blackjack.CalcularPuntaje | app/services/juegos/blackjack.py:76-92 | the two loops compute the score of the specification |
| Blackjack.BlackjackEsAsYDiez | app/services/juegos/blackjack.py:95-97 | two cards of the deck make 21 exactly when one is an ace and the other is worth 10; two cards never pass 21 |
| Blackjack.TurnoBancaPropiedades | app/services/juegos/blackjack.py:317-327 | the dealer's hand only grows by the cards taken from the top of the deck, no card is lost, play stops at 17 or more or with an empty deck, and every hand the dealer drew to was under 17 |
| Blackjack.JugarBanca | app/services/juegos/blackjack.py:317-327 | the dealer's loop computes the dealer's turn of the specification |
| Blackjack.TablaDePagos | app/services/juegos/blackjack.py:329-357 | a player blackjack alone pays 2.5 times the stake, two blackjacks return the stake, a dealer blackjack alone pays nothing, and otherwise the hand pays 2x exactly when the dealer busts or scores less, the stake on a tie, nothing on a loss |
| Blackjack.Sesiones.constructor | app/services/juegos/blackjack.py:15 | the session table starts empty |
| Blackjack.Vigentes | app/services/juegos/blackjack.py:109-121 | a sweep at time now keeps exactly the sessions at most one hour old, unchanged |
| Blackjack.LimpiarSesionesExpiradas | app/services/juegos/blackjack.py:109-121 | the two loops leave exactly the surviving sessions |
| Blackjack.ObtenerSesionAsegurada | app/services/juegos/blackjack.py:124-134 | 404 for an unknown id, 403 for another user's session, 400 for a finished one, otherwise that session |
| Blackjack.IniciarConserva | app/services/juegos/blackjack.py:183-210 | a start keeps every stored session valid: the four dealt cards and the rest make the whole deck |
| Blackjack.SesionInicialValida | app/services/juegos/blackjack.py:183-210 | a freshly dealt session is valid |
| Blackjack.RepartoConserva | app/services/juegos/blackjack.py:188-189 | dealing the top four cards, two to each hand, loses none |
| Blackjack.DelMazo | app/services/juegos/blackjack.py:61-72 | every card of a shuffled deck is a card of the deck |
| Blackjack.IniciarBlackjack | app/services/juegos/blackjack.py:154-226 | 422 below 1 with nothing swept; after the sweep 400 for a stake not permitted, 404 for a missing user, 400 for a short balance, with the balance untouched; otherwise the stake is debited and the shuffled deck dealt two cards each from the top into a new session |
| Blackjack.PedirConserva | app/services/juegos/blackjack.py:228-287 | a hit keeps every stored session valid: the drawn card moves from deck to hand, and the sweep and a deletion only drop sessions |
| Blackjack.PedirCarta | app/services/juegos/blackjack.py:228-287 | after the sweep and the session checks (404, 403, 400) an empty deck is 400; otherwise the top card joins the player's hand; at 21 or less play goes on, over 21 the hand is lost with nothing credited and the session deleted |
| Blackjack.Robar | app/services/juegos/blackjack.py:245-287 | the draw after the checks: continue at 21 or less, lose and delete over 21 |
| Blackjack.Resolucion | app/services/juegos/blackjack.py:317-357 | the dealer's loop followed by the outcome checks in the source's order computes the outcome of the specification |
| Blackjack.PlantarseBlackjack | app/services/juegos/blackjack.py:289-386 | after the sweep, the session checks and the user lookup (404), the dealer plays, the payout of the outcome is credited and the session deleted |
| Bonus.DiaDe | app/services/juegos/bonus.py:29-32 | the day a Date column stores is the day containing the instant |
| Bonus.MontoBonus | app/services/juegos/bonus.py:12-39 | a verified user gets 500, five times the 100 of an unverified one |
| Bonus.ReclamoTalCual | app/services/juegos/bonus.py:29-45 | the claim with the guard as written never fails: the balance grows by the bonus and the date of `hoy` is recorded |
| Bonus.Reclamo | app/services/juegos/bonus.py:29-45 | the claim with the intended guard: refused with 400 exactly when the stored day is today's; otherwise the bonus is credited and today recorded |
| Bonus.ReclamoRepetido | app/services/juegos/bonus.py:32 | as written the guard never fires: claiming twice at the same instant succeeds twice and credits the bonus twice |
| Bonus.UnReclamoPorDia | app/services/juegos/bonus.py:29-45 | with the intended guard a second claim the same day is refused and one on any later day accepted |
| Bonus.DiaSiguiente | app/services/juegos/bonus.py:29-45 | a claim a full day after a successful one is always accepted |
| Bonus.ReclamarBonusDiario | app/services/juegos/bonus.py:17-53 | 404 for a missing user; the guard as written never refuses, so every existing user is credited the bonus and has today recorded, nothing else changes, and the answer reports the bonus, the new balance and the verification |
| Bonus.ReclamarBonusDiarioCorregido | app/services/juegos/bonus.py:17-53 | with the intended guard: 404 for a missing user, 400 exactly when today's bonus was claimed, otherwise only the caller's balance and claim day change, and the answer reports the bonus, the new balance and the verification |
| Admin.Referidor | app/services/admin.py:56-60 | the referrer that gains 2000 is the user's nonzero `referido_por`, when that row exists |
| Admin.SubReferidor | app/services/admin.py:61-64 | the referrer's own nonzero referrer, when that row exists, is the one that gains 100 |
| Admin.BonificarReferidos | app/services/admin.py:56-64 | applying the chain's bonuses one after the other keeps the same users and adds to each exactly its share of the referral bonuses |
| Admin.GananciaAcotada | app/services/admin.py:56-71 | only the user, its referrer and its sub-referrer gain; each gains between 0 and 12100 and the user at least 10000 |
| Admin.AdminVerificarUsuario | app/services/admin.py:36-96 | 403 for a non-admin, 404 for an unknown user, 400 for one already verified or without e-mail, 500 when the named referrer is missing, all with nothing changed; otherwise the user becomes verified and not pending and every balance grows by exactly its gain |
| Admin.AdminRechazarVerificacion | app/services/admin.py:121-147 | 403; 500 for an unknown user; 404 without a pending request; otherwise one pending request becomes "rechazada", the user is no longer pending and nothing else changes |
| Admin.AdminListarVerificaciones | app/services/admin.py:28-34 | only the administrator may list, and gets exactly the pending requests |
| Admin.AdminListarUsuarios | app/services/admin.py:20-26 | only the administrator may list, and gets every user |
| Admin.AdminEliminarUsuario | app/services/admin.py:149-170 | as written every call by the administrator fails with 500 before any guard, so no user is ever deleted; a non-admin gets 403 |
| Admin.SinFilasDe | app/services/admin.py:165-166 | the deposits, withdrawals or verification requests left are exactly those of other users, unchanged |
| Admin.EliminarUsuario | app/services/admin.py:149-170 | the intended deletion: 404 for an unknown user, 400 for the user named "admin", both with nothing changed; otherwise the user and every deposit, withdrawal and request of it are removed and nothing else |
| Auth.AltaCambios | app/services/auth.py:29-54 | a sign-up adds exactly the new id; the new user starts at 1000 when referred and 0 otherwise, and the only other row that changes is the referrer's, by exactly 100 |
| Auth.AltaPreservaUnicos | app/services/auth.py:21-46 | signing up with an unused e-mail, username and id keeps every identifier unique |
| Auth.RegistrarUsuario | app/services/auth.py:18-56 | 400 when the e-mail or the username is taken, 500 when the drawn id exists, all with nothing inserted; otherwise the user is inserted as the sign-up says and returned as stored, and uniqueness is kept |
| Crud.VerificarUsuario | app/crud.py:72-94 | 404 for an unknown user and 400 for one already verified, with nothing changed; otherwise the user becomes verified and every balance grows by exactly its verification gain |
| Crud.GananciaVerificacionTotal | app/crud.py:80-88 | only the user (10000) and its existing referrer (2000) gain |
| Crud.ActualizarEstadoVerificacion | app/crud.py:125-133 | 404 exactly for an unknown id, with nothing changed; otherwise only that request's `estado` changes, to exactly the value given |
| Crud.ListarVerificacionesPendientes | app/crud.py:119-120 | exactly the requests whose `estado` is "pendiente" |
| Referidos.ReferidosDe | app/services/referidos.py:20-22 | the referrals of a user are existing users |
| Referidos.Aporte | app/services/referidos.py:38-39 | a sub-referral contributes a tenth of its base: 200 when verified, 10 otherwise |
| Referidos.Verificados | app/services/referidos.py:38 | the verified members are a subset of the group |
| Referidos.SumaMas | app/services/referidos.py:36-39 | one more sub-referral adds its own contribution to the sum |
| Referidos.Subreferidos | app/services/referidos.py:45-48 | the nested list names every sub-referral with its status, and nothing else |
| Referidos.Particion | app/services/referidos.py:36-39 | verified and unverified sub-referrals together are all of them |
| Referidos.GananciaAcotada | app/services/referidos.py:26-44 | an entry earns its base plus between 10 and 200 per sub-referral; exactly 200 each when all are verified and 10 each when none is |
| Referidos.GananciaSubreferidos | app/services/referidos.py:36-39 | the inner loop sums the sub-referrals' contributions |
| Referidos.ObtenerReferidos | app/services/referidos.py:14-51 | one entry for exactly the users the caller referred, each with its base plus its sub-referrals' contributions and their list |
| Cascadas.Grupo | app/services/juegos/cascadastestris.py:30-40 | each symbol's group is between 1 and 9 |
| Cascadas.MultiplicadorCombo | app/services/juegos/cascadastestris.py:43-225 | the length bonus is between 1 and 200, 1 for unknown lengths, at least 2 from length 4 on |
| Cascadas.BonusCascada | app/services/juegos/cascadastestris.py:55-244 | the cascade bonus is between 1 and 5 |
| Cascadas.BonusCrece | app/services/juegos/cascadastestris.py:55-244 | from the first cascade on a deeper level never has a smaller bonus, and from level 6 on it is 5 |
| Cascadas.ConfigDe | app/services/juegos/cascadastestris.py:12-27 | the two configurations are square grids of side 5 or 10 with a base multiplier of at least 1 and a stake range that is not empty |
| Cascadas.Valor | app/services/juegos/cascadastestris.py:64-73 | the grid value holds the array's cells row by row |
| Cascadas.IgualesPorCeldas | app/services/juegos/cascadastestris.py:361 | two grids of one shape agreeing on every cell are the same grid |
| Cascadas.Posiciones | app/services/juegos/cascadastestris.py:98-163 | the positions of a combination are its first `longitud` cells along its line |
| Cascadas.Largo | app/services/juegos/cascadastestris.py:90-157 | the run grows while the next cell of the line is on the grid and holds the first cell's symbol, and stops at the first cell that does not |
| Cascadas.ComboEnValido | app/services/juegos/cascadastestris.py:94-100 | a reported run has its symbol on every cell, consecutive cells, and cannot grow forward; it cannot grow backward either when nothing precedes it |
| Cascadas.ExtiendeTransitivo | app/services/juegos/cascadastestris.py:75-167 | reporting only valid runs composes over consecutive scans |
| Cascadas.AnotarExtiende | app/services/juegos/cascadastestris.py:94-100 | one scan start reports at most its own run, a maximal one where nothing precedes it |
| Cascadas.InicioDesplazar | app/services/juegos/cascadastestris.py:82-123 | the cell i steps along a row or column from position p is position p + i |
| Cascadas.ArranqueTrasTramo | app/services/juegos/cascadastestris.py:101-123 | after a run the row or column scan stands on a cell not preceded by the same symbol |
| Cascadas.ArranqueTrasVacia | app/services/juegos/cascadastestris.py:86-110 | after an empty cell the scan stands where a run may start |
| Cascadas.ArranqueInicial | app/services/juegos/cascadastestris.py:83-105 | a row or column scan starts where nothing precedes |
| Cascadas.LineaVacia | app/services/juegos/cascadastestris.py:86-110 | at an empty cell the scan moves one cell on and reports nothing |
| Cascadas.LineaTramo | app/services/juegos/cascadastestris.py:90-123 | at a run the scan reports it when long enough and resumes just after it |
| Cascadas.LineaTramoDe | app/services/juegos/cascadastestris.py:90-123 | the same step for a run whose length is already measured |
| Cascadas.LineaExtiende | app/services/juegos/cascadastestris.py:82-123 | a row or column scan reports only maximal runs of its line, at least `min_combo` long |
| Cascadas.RectasExtiende | app/services/juegos/cascadastestris.py:82-123 | all rows (or all columns) together report only maximal runs |
| Cascadas.DiagonalesFilaExtiende | app/services/juegos/cascadastestris.py:127-165 | one row of a diagonal scan reports only valid diagonal runs |
| Cascadas.DiagonalesExtiende | app/services/juegos/cascadastestris.py:126-165 | the diagonal scans report only valid diagonal runs |
| Cascadas.CombinacionesValidas | app/services/juegos/cascadastestris.py:75-167 | every combination found has `longitud == len(posiciones) >= min_combo`, consecutive cells of its line all holding its symbol, and a horizontal or vertical one is a maximal run |
| Cascadas.TramoAntesDe | app/services/juegos/cascadastestris.py:101-123 | a run ends at or before the start of any later run on its line, so the scan never skips one |
| Cascadas.LineaCompleta | app/services/juegos/cascadastestris.py:82-123 | the scan of a line from p reports every long enough run starting at or after p |
| Cascadas.LineaCompletaVacia | app/services/juegos/cascadastestris.py:86-110 | stepping over an empty cell loses no later run |
| Cascadas.LineaCompletaSalto | app/services/juegos/cascadastestris.py:101-123 | jumping over a run loses no later run |
| Cascadas.LineaCompletaAqui | app/services/juegos/cascadastestris.py:94-123 | the run the scan stands on is reported and kept |
| Cascadas.AnotarIncluye | app/services/juegos/cascadastestris.py:94-100 | a start with a long enough run appends that run |
| Cascadas.RectasCompletas | app/services/juegos/cascadastestris.py:82-123 | the scan of all rows (or columns) reports every long enough run of any of them |
| Cascadas.TrasRectas | app/services/juegos/cascadastestris.py:125-167 | what the row and column scans found is still in the result after the diagonal scans |
| Cascadas.HorizontalesCompletas | app/services/juegos/cascadastestris.py:82-101 | every maximal horizontal run of at least `min_combo` equal symbols is reported |
| Cascadas.VerticalesCompletas | app/services/juegos/cascadastestris.py:104-123 | every maximal vertical run of at least `min_combo` equal symbols is reported |
| Cascadas.DiagonalesFilaCompletas | app/services/juegos/cascadastestris.py:127-165 | one row of a diagonal scan reports the run from every start of its range |
| Cascadas.DiagonalesCompletas | app/services/juegos/cascadastestris.py:126-165 | the diagonal scans report the run from every start of their ranges |
| Cascadas.DescendentesCompletas | app/services/juegos/cascadastestris.py:126-144 | a descending run from any cell with row up to `filas - min_combo` and column up to `columnas - min_combo` is reported, even inside a longer run |
| Cascadas.AscendentesCompletas | app/services/juegos/cascadastestris.py:147-165 | likewise an ascending run from any cell with row from `min_combo - 1` on and column up to `columnas - min_combo` |
| Cascadas.MedirTramo | app/services/juegos/cascadastestris.py:90-157 | the measuring loop computes the run length |
| Cascadas.AnotarEn | app/services/juegos/cascadastestris.py:90-100 | at a non-empty start the run is measured and appended when at least `min_combo` long |
| Cascadas.RecorrerLinea | app/services/juegos/cascadastestris.py:82-123 | the loop over one row (or column) appends what the specification's line scan reports |
| Cascadas.PasoLinea | app/services/juegos/cascadastestris.py:85-123 | one step of the line loop moves strictly forward within the line and keeps the scan's result |
| Cascadas.RecorrerFila | app/services/juegos/cascadastestris.py:127-165 | the inner diagonal loop for one row appends what the specification reports |
| Cascadas.RecorrerDiagonales | app/services/juegos/cascadastestris.py:126-165 | the nested diagonal loops append what the specification reports |
| Cascadas.EncontrarCombinaciones | app/services/juegos/cascadastestris.py:75-167 | the four scans in order compute the combinations of the specification |
| Cascadas.Celdas | app/services/juegos/cascadastestris.py:173 | the cells named by a list of positions, and only those |
| Cascadas.ElegidasSon | app/services/juegos/cascadastestris.py:172-173 | a cell is chosen for removal exactly when some combination names it |
| Cascadas.Vaciar | app/services/juegos/cascadastestris.py:169-180 | removal keeps the grid's shape |
| Cascadas.Eliminadas | app/services/juegos/cascadastestris.py:174-179 | the reported removed cells are among those named |
| Cascadas.EliminadasCambian | app/services/juegos/cascadastestris.py:169-180 | the reported cells are exactly those the removal changed; every named cell ends empty and every other cell keeps its symbol |
| Cascadas.VaciarIdempotente | app/services/juegos/cascadastestris.py:174-176 | removing the same cells twice removes nothing more and reports nothing |
| Cascadas.EliminarCombinaciones | app/services/juegos/cascadastestris.py:169-180 | the loops empty the cells of every combination in place and return the cells that held a symbol, without duplicates |
| Cascadas.VaciarPosiciones | app/services/juegos/cascadastestris.py:173-176 | the inner loop empties one combination's cells, adding those that held a symbol |
| Cascadas.NoVacias | app/services/juegos/cascadastestris.py:191-201 | the symbols kept by the fall are non-empty, no more than the column's cells |
| Cascadas.Nuevas | app/services/juegos/cascadastestris.py:207-209 | the k new symbols fill the top k rows, the first draw lowest |
| Cascadas.CaidaLlena | app/services/juegos/cascadastestris.py:188-215 | a column keeps its height and has no empty cell after the fall |
| Cascadas.NoVaciasCuenta | app/services/juegos/cascadastestris.py:191-201 | every symbol that stays is kept as often as it was there: only empty cells are dropped |
| Cascadas.NoVaciasLlena | app/services/juegos/cascadastestris.py:191-201 | a column without gaps keeps all its cells |
| Cascadas.CaidaCuenta | app/services/juegos/cascadastestris.py:188-215 | after the fall each symbol is there as often as before plus the new ones |
| Cascadas.CaidaSinHuecos | app/services/juegos/cascadastestris.py:188-215 | a column with no gap does not change |
| Cascadas.NoVaciasDesde | app/services/juegos/cascadastestris.py:191-201 | the compaction from row f takes that row's symbol, if any, then the rest |
| Cascadas.Columna | app/services/juegos/cascadastestris.py:188 | a column of the grid is its cells top to bottom |
| Cascadas.Gravedad | app/services/juegos/cascadastestris.py:182-217 | gravity keeps the grid's shape |
| Cascadas.GravedadColumnas | app/services/juegos/cascadastestris.py:182-217 | each column of the new grid is the fall of the old column with its own draws, and no cell is left empty |
| Cascadas.GravedadSinHuecos | app/services/juegos/cascadastestris.py:182-217 | a grid without gaps does not move |
| Cascadas.ColumnaDe | app/services/juegos/cascadastestris.py:188 | a column of the array, top to bottom |
| Cascadas.CaerColumna | app/services/juegos/cascadastestris.py:188-215 | the loops for one column make it the fall of the old column and touch no other column |
| Cascadas.Compactar | app/services/juegos/cascadastestris.py:190-201 | the bottom-up loop moves the column's symbols, in order, to its lowest rows and returns the last row left free |
| Cascadas.Bajar | app/services/juegos/cascadastestris.py:191-201 | one row of that loop moves a symbol down to the lowest free row, keeping the column's expected shape |
| Cascadas.EsperadaVacia | app/services/juegos/cascadastestris.py:192 | an empty cell is passed over |
| Cascadas.EsperadaQueda | app/services/juegos/cascadastestris.py:193 | a symbol already on the lowest free row stays |
| Cascadas.EsperadaBaja | app/services/juegos/cascadastestris.py:193-201 | a symbol above the lowest free row moves to it and leaves its own row empty |
| Cascadas.Rellenar | app/services/juegos/cascadastestris.py:207-215 | the second loop fills the free rows with the draws, the first lowest, completing the fall |
| Cascadas.AplicarGravedad | app/services/juegos/cascadastestris.py:182-217 | every column falls and is refilled from its own draws, as the specification's gravity says |
| Cascadas.VecesProducto | app/services/juegos/cascadastestris.py:229 | repeated addition is multiplication |
| Cascadas.VecesSuma | app/services/juegos/cascadastestris.py:230 | repeated addition distributes over the count |
| Cascadas.VecesSigno | app/services/juegos/cascadastestris.py:229-230 | n copies of a positive amount are positive exactly when n is, and never negative |
| Cascadas.VecesMonotono | app/services/juegos/cascadastestris.py:229-230 | more per copy is never less in total |
| Cascadas.VecesCrece | app/services/juegos/cascadastestris.py:229-230 | more copies of a non-negative amount are never less |
| Cascadas.ConBonusProducto | app/services/juegos/cascadastestris.py:244-245 | applying the bonus multiplies the score by the level's bonus |
| Cascadas.ConBonusCota | app/services/juegos/cascadastestris.py:244-245 | the bonus never lowers a non-negative score and at most multiplies it by five, keeping it positive |
| Cascadas.Puntos | app/services/juegos/cascadastestris.py:225-227 | a combination's points, ten times the group times the length bonus, lie between 10 and 18000 |
| Cascadas.PuntosProducto | app/services/juegos/cascadastestris.py:227-229 | the points are the group times 10 times the length bonus |
| Cascadas.Detalles | app/services/juegos/cascadastestris.py:232-241 | one detail per combination, in order |
| Cascadas.CalcularPuntaje | app/services/juegos/cascadastestris.py:219-257 | the loop computes the score of the specification |
| Cascadas.SumaPuntajesCota | app/services/juegos/cascadastestris.py:224-230 | combinations score between 10 and 18000 times the base each |
| Cascadas.SumaPuntajesConcat | app/services/juegos/cascadastestris.py:224-230 | the score of two lists together is the sum of their scores |
| Cascadas.GananciaCascada | app/services/juegos/cascadastestris.py:219-257 | with a positive stake and base a cascade's prize is positive exactly when a combination was found, at least the prize without bonus and at most five times it |
| Cascadas.CeldasCuenta | app/services/juegos/cascadastestris.py:345 | a list names at most as many cells as its length |
| Cascadas.SimbolosEliminadosCota | app/services/juegos/cascadastestris.py:345 | the reported count is at least the number of distinct cells emptied, and at least three per combination |
| Cascadas.Siguiente | app/services/juegos/cascadastestris.py:353-357 | the grid after a cascade keeps its shape |
| Cascadas.SiguienteLlena | app/services/juegos/cascadastestris.py:353-361 | after a cascade the grid is full again |
| Cascadas.CorrerPaso | app/services/juegos/cascadastestris.py:321-361 | a grid with combinations gives one cascade, and the run goes on from the grid after it |
| Cascadas.CorrerFinal | app/services/juegos/cascadastestris.py:321-326 | the run stops on a grid of the same shape without any combination |
| Cascadas.CorrerPrefijo | app/services/juegos/cascadastestris.py:316-361 | the run adds at most one cascade per set of draws, and none exactly when the first grid has no combination |
| Cascadas.CorrerTodas | app/services/juegos/cascadastestris.py:319-339 | every combination found on the way is kept, in order |
| Cascadas.CorrerNiveles | app/services/juegos/cascadastestris.py:328-351 | cascade levels count up from 1, each carries its level's bonus and found at least one combination |
| Cascadas.CorrerLlenas | app/services/juegos/cascadastestris.py:353-361 | every cascade leaves a full grid of the shape of the first |
| Cascadas.CascadaPaga | app/services/juegos/cascadastestris.py:331-347 | a cascade that found something pays something, with a positive stake and base |
| Cascadas.CorrerPaga | app/services/juegos/cascadastestris.py:331-351 | every cascade of the run pays something |
| Cascadas.GananciaTotalMas | app/services/juegos/cascadastestris.py:338 | the total grows by each cascade's prize |
| Cascadas.GananciaTotalPositiva | app/services/juegos/cascadastestris.py:338 | positive prizes total something positive exactly when there is one |
| Cascadas.GananciaDeLaCorrida | app/services/juegos/cascadastestris.py:318-364 | what the game credits is positive exactly when the first grid had a combination |
| Cascadas.ProcesarCascada | app/services/juegos/cascadastestris.py:328-361 | one pass scores the combinations, empties their cells, lets the grid fall and records the cascade |
| Cascadas.Acumular | app/services/juegos/cascadastestris.py:338 | the running total is the sum of the prizes so far |
| Cascadas.Cascadear | app/services/juegos/cascadastestris.py:316-361 | the loop produces the run of the specification and the total of its prizes |
| Cascadas.MatrizDe | app/services/juegos/cascadastestris.py:64-73 | the drawn grid is full and has the drawn symbols |
| Cascadas.GenerarMatriz | app/services/juegos/cascadastestris.py:64-73 | the loops build a fresh array with the drawn symbols |
| Cascadas.Partida | app/services/juegos/cascadastestris.py:313-361 | the first grid then cascades until the grid is quiet, with the total won |
| Cascadas.Roi | app/services/juegos/cascadastestris.py:392 | the return is non-negative exactly when the prize covers the stake, -100 when nothing was won, and 0 for a stake that is not positive |
| Cascadas.Cociente | app/services/juegos/cascadastestris.py:392 | dividing by a positive stake keeps the sign, and minus the stake over the stake is -1 |
| Cascadas.MensajeDeLaCorrida | app/services/juegos/cascadastestris.py:366-373 | the "no combination" message exactly when no cascade happened, the one naming the levels exactly when there were several |
| Cascadas.Acreditar | app/services/juegos/cascadastestris.py:310-364 | the stake is taken out and the total won added to the balance |
| Cascadas.JugarCascadas | app/services/juegos/cascadastestris.py:280-394 | the intended game: 400 for an unknown configuration or a stake out of range, 404 for a missing user, 400 for a short balance, with nothing changed; otherwise the balance moves by the total won minus the stake and the answer describes the run |
| Cascadas.JugarCascadasTalCual | app/services/juegos/cascadastestris.py:280-394 | as written: the same errors, and a game with at least one cascade fails with 500 on the credit and changes nothing; only a game without any cascade commits |
| Cascadas.Limite | app/services/juegos/cascadastestris.py:413 | the simulation shows at most five steps, as many as asked when that is between 0 and 5, none when fewer than 0 |
| Cascadas.Primeros | app/services/juegos/cascadastestris.py:426-431 | slicing keeps the first n elements, or all of them |
| Cascadas.DetallesSimulados | app/services/juegos/cascadastestris.py:426-432 | a step shows its first three combinations at most, each cut to five positions |
| Cascadas.Detallar | app/services/juegos/cascadastestris.py:426-432 | the loop builds those details |
| Cascadas.PasosPaso | app/services/juegos/cascadastestris.py:413-441 | a step from a grid with combinations is numbered next, shows at most three combinations, and the simulation goes on from the grid after it |
| Cascadas.NumeradosMas | app/services/juegos/cascadastestris.py:419-441 | appending the next step keeps the steps numbered from one on |
| Cascadas.PasosPrefijo | app/services/juegos/cascadastestris.py:413-441 | the simulation adds at most one step per set of draws and none exactly when no draw is left or the grid is quiet |
| Cascadas.PasosNumerados | app/services/juegos/cascadastestris.py:413-441 | the steps are numbered from one on, each with a combination removed and at most three shown |
| Cascadas.PasoCoincide | app/services/juegos/cascadastestris.py:321-442 | from the same grid, combinations and refill a simulated step and a played cascade leave the same grid, count the same combinations and clear the same symbols |
| Cascadas.JuntosPaso | app/services/juegos/cascadastestris.py:321-441 | one step of the simulation and one cascade of the game from the same grid and draws show the same combinations and leave the same grid |
| Cascadas.PasosCuantos | app/services/juegos/cascadastestris.py:321-441 | with the same grid and draws the simulation has as many steps as the game has cascades, unless its draws run out first |
| Cascadas.CoincidenDesde | app/services/juegos/cascadastestris.py:413-441 | matching steps and cascades from one place on extend back by one matching pair |
| Cascadas.PasosComoCorrida | app/services/juegos/cascadastestris.py:321-441 | each step of the simulation shows what the game's cascade at the same place showed |
| Cascadas.SimularComoJugar | app/services/juegos/cascadastestris.py:397-441 | the simulation of a grid shows the first `min(pasos, 5)` cascades a game on that grid goes through, or all when the game has fewer |
| Cascadas.ProcesarPaso | app/services/juegos/cascadastestris.py:419-441 | one pass of the simulation loop records the step and leaves the grid after it |
| Cascadas.SimularCascada | app/services/juegos/cascadastestris.py:397-442 | 400 exactly for an unknown configuration; otherwise the first grid and the steps of the specification |
| Poker.Baraja | app/services/juegos/poker.py:201-202 | the deck built before the shuffle has 52 cards |
| Poker.IndicePalo | app/services/juegos/poker.py:33-37 | every suit has its place among the four |
| Poker.BarajaCompleta | app/services/juegos/poker.py:201-202 | the deck holds 52 distinct cards and every card is in it |
| Poker.Valores | app/services/juegos/poker.py:224 | the card values, one per card, in order |
| Poker.Palos | app/services/juegos/poker.py:225 | the card suits, one per card, in order |
| Poker.ValoresDePalo | app/services/juegos/poker.py:240-267 | the values of exactly the cards of that suit |
| Poker.ValoresDeCartas | app/services/juegos/poker.py:224-267 | card values lie between 2 and 14 |
| Poker.Repetir | app/services/juegos/poker.py:224 | n copies of a value |
| Poker.RepetirCuenta | app/services/juegos/poker.py:224 | n copies of a value hold that value n times and nothing else |
| Poker.BajarCuenta | app/services/juegos/poker.py:224 | listing a multiset's values from v down to 1 keeps each multiplicity, stays within 1 to v and is descending |
| Poker.BajarPermuta | app/services/juegos/poker.py:224 | when all values are between 1 and v that listing is the whole multiset |
| Poker.CartasEnMultiset | app/services/juegos/poker.py:224 | the values of cards are between 1 and 14 |
| Poker.OrdenDescOrdena | app/services/juegos/poker.py:224 | `sorted(..., reverse=True)` gives the same values with the same multiplicities in descending order |
| Poker.DistintosMiembros | app/services/juegos/poker.py:253 | `sorted(set(...), reverse=True)` holds exactly the values present, strictly descending |
| Poker.ConjuntoDe | app/services/juegos/poker.py:253 | `set(vs)` holds exactly the values of the list |
| Poker.ConteoCuenta | app/services/juegos/poker.py:227-233 | the counting dictionary counts each entry's multiplicity, and its keys are exactly the entries |
| Poker.Fuera | app/services/juegos/poker.py:275-301 | the filter keeps exactly the values outside the excluded ones |
| Poker.FueraTam | app/services/juegos/poker.py:275-301 | excluding one or two values removes exactly their occurrences |
| Poker.Maximo | app/services/juegos/poker.py:274-275 | `max` is an element no smaller than any other |
| Poker.Tomar | app/services/juegos/poker.py:285-308 | slicing keeps the first n entries, or all of them |
| Poker.OrdenSinRepetir | app/services/juegos/poker.py:227-233 | the dictionary's keys are distinct |
| Poker.Ventana | app/services/juegos/poker.py:254-256 | in a strictly descending list, two entries four places apart that differ by 4 bound five consecutive values |
| Poker.BuscarSana | app/services/juegos/poker.py:254-256 | what the window search returns is five consecutive values of the list |
| Poker.BuscarHalla | app/services/juegos/poker.py:254-256 | a window at or after the start is found, and the one found starts no lower |
| Poker.Siguiente | app/services/juegos/poker.py:253-256 | in a strictly descending list the entry after t is t - 1 whenever t - 1 is present |
| Poker.BuscarCompleta | app/services/juegos/poker.py:253-256 | five consecutive values present make the search succeed with a top at least as high |
| Poker.FilaEscalera | app/services/juegos/poker.py:252-263 | five consecutive values of the set, at least 2, form a straight of it |
| Poker.HallazgoEn | app/services/juegos/poker.py:253-256 | what the search finds is five consecutive values of the set, at most the bound |
| Poker.HallaEn | app/services/juegos/poker.py:253-256 | five consecutive values of the set within the bound make the search succeed with a top at least as high |
| Poker.AsPresente | app/services/juegos/poker.py:257 | the ace is among the values when the search list holds it |
| Poker.AsBajo | app/services/juegos/poker.py:257-262 | a run found with the ace counted as 1 is a straight of the values with the ace |
| Poker.EscaleraSana | app/services/juegos/poker.py:252-263 | what `hay_escalera` returns is five consecutive values forming a straight of the given values |
| Poker.EscaleraCompleta | app/services/juegos/poker.py:252-263 | every straight among the values is found, and the one returned starts no lower |
| Poker.Fuerza | app/services/juegos/poker.py:63-73 | the strength of a category is between 1 and 10 |
| Poker.Filtrar | app/services/juegos/poker.py:273-299 | the filter keeps exactly the keys with that count |
| Poker.Mejor | app/services/juegos/poker.py:235-280 | the first entry of the sorted counts is a key, neither less frequent than another nor lower among equally frequent ones |
| Poker.Segundo | app/services/juegos/poker.py:235-280 | the second entry is the best of the other keys |
| Poker.PrimeroConCinco | app/services/juegos/poker.py:245-249 | the flush candidate is the first suit counted at least five times, or none when no suit has five |
| Poker.SinRepetirCuenta | app/services/juegos/poker.py:227-233 | a list without repeats holds each value at most once |
| Poker.DosVeces | app/services/juegos/poker.py:227-233 | a value at two positions is counted at least twice |
| Poker.FiltrarSinRepetir | app/services/juegos/poker.py:299 | filtering distinct keys gives distinct keys |
| Poker.OrdenDescEstricta | app/services/juegos/poker.py:299 | sorting distinct values gives a strictly descending list |
| Poker.ValoresOrdenados | app/services/juegos/poker.py:224 | the sorted values are a descending permutation of the hand's values |
| Poker.Pares | app/services/juegos/poker.py:299 | the pair values are distinct, strictly descending and exactly the values counted twice |
| Poker.KickerDoblePar | app/services/juegos/poker.py:300-301 | with a fifth card two pair always has a kicker |
| Poker.KickerPoquer | app/services/juegos/poker.py:273-275 | with a fifth card four of a kind always has a kicker |
| Poker.Kickers | app/services/juegos/poker.py:273-306 | away from four cards every `max` the evaluation takes is over a non-empty list |
| Poker.SinColorSinError | app/services/juegos/poker.py:287-308 | from the straight test on the evaluation answers |
| Poker.SinFullSinError | app/services/juegos/poker.py:278-308 | from the full-house test on the evaluation answers |
| Poker.SinPoquerSinError | app/services/juegos/poker.py:272-308 | from the four-of-a-kind test on the evaluation answers |
| Poker.SinEscaleraColorSinError | app/services/juegos/poker.py:265-308 | from the straight-flush test on the evaluation answers |
| Poker.KickersDe | app/services/juegos/poker.py:224-306 | a hand of any size but four has every kicker it needs |
| Poker.SinRealSinError | app/services/juegos/poker.py:244-308 | after the royal test the evaluation answers |
| Poker.EvaluacionSinError | app/services/juegos/poker.py:223-308 | `evaluar_mano` only fails on four cards (four of a kind or two pairs with no kicker left) |
| Poker.ConjuntoTam | app/services/juegos/poker.py:253 | a set of values has no more elements than the list |
| Poker.EscaleraCinco | app/services/juegos/poker.py:252-263 | a straight needs five different values |
| Poker.ValoresDePaloCuenta | app/services/juegos/poker.py:240-267 | the values of a suit are as many as its cards |
| Poker.DosPalos | app/services/juegos/poker.py:227-229 | two different suits together count no more cards than the hand |
| Poker.PalosDeValor | app/services/juegos/poker.py:224-225 | the suits of the cards of a value are as many as its count |
| Poker.NoEnResto | app/services/juegos/poker.py:201-202 | in a list of distinct cards the first is not among the rest |
| Poker.SinRepetirDelante | app/services/juegos/poker.py:201-202 | prepending a new card keeps the cards distinct |
| Poker.PalosDeValorSinRepetir | app/services/juegos/poker.py:201-202 | distinct cards of one value have distinct suits |
| Poker.PalosAcotados | app/services/juegos/poker.py:33-37 | distinct suits are at most four |
| Poker.UnaBarajaCuenta | app/services/juegos/poker.py:201-202 | distinct cards hold each value at most four times |
| Poker.FiltrarEtapa | app/services/juegos/poker.py:273-293 | `any(cnt == k)` holds exactly when some value is counted k times or more, once nothing is counted more than k |
| Poker.FullEtapa | app/services/juegos/poker.py:279 | the full-house test on the two leading entries holds exactly on a full house |
| Poker.DosDistintos | app/services/juegos/poker.py:300 | two different members make at least two |
| Poker.DobleParEtapa | app/services/juegos/poker.py:299-300 | the two-pair test holds exactly on two pair |
| Poker.ParEtapa | app/services/juegos/poker.py:299-303 | the one-pair test holds exactly when some value is paired |
| Poker.EscaleraEtapa | app/services/juegos/poker.py:252-288 | `hay_escalera` succeeds exactly when the values hold a straight |
| Poker.MismoConjunto | app/services/juegos/poker.py:253 | lists with the same values have the same set |
| Poker.ColorEtapa | app/services/juegos/poker.py:245-283 | the flush candidate is found exactly on a flush, and with at most nine cards no other suit has five |
| Poker.EscaleraColorEtapa | app/services/juegos/poker.py:265-270 | the straight-flush test, made on the candidate suit only, holds exactly on a straight flush |
| Poker.DesdeParesCategoria | app/services/juegos/poker.py:298-308 | the last tests pick two pair, pair or high card by the number of paired values |
| Poker.DesdeTrioCategoria | app/services/juegos/poker.py:292-308 | from three of a kind down the category is the standard one |
| Poker.SinColorCategoria | app/services/juegos/poker.py:287-308 | from the straight down the category is the standard one |
| Poker.SinFullCategoria | app/services/juegos/poker.py:278-308 | from the full house down the category is the standard one |
| Poker.SinPoquerCategoria | app/services/juegos/poker.py:272-308 | from four of a kind down the category is the standard one |
| Poker.SinEscaleraColorCategoria | app/services/juegos/poker.py:265-308 | from the straight flush down the category is the standard one |
| Poker.ValoresCategoria | app/services/juegos/poker.py:224 | sorting the values does not change the category |
| Poker.MismaCategoria | app/services/juegos/poker.py:224 | the category depends only on the multiset of values |
| Poker.SinRealCategoria | app/services/juegos/poker.py:244-308 | after the royal test the category is the standard one |
| Poker.EvaluacionCategoria | app/services/juegos/poker.py:223-308 | `evaluar_mano` names the standard category of any hand of distinct cards, and answers on every such hand but a four-card one |
| Poker.Contar | app/services/juegos/poker.py:227-233 | the counting loops build the dictionary of the specification, keys in insertion order |
| Poker.BuscarReal | app/services/juegos/poker.py:238-242 | the loop over the suits finds 10 to the ace of one suit exactly when some suit has them |
| Poker.BuscarColor | app/services/juegos/poker.py:245-249 | the loop sets the flush candidate of the specification |
| Poker.BuscarVentana | app/services/juegos/poker.py:254-256 | the window loop finds the first window whose ends differ by 4 |
| Poker.BuscarEscalera | app/services/juegos/poker.py:252-263 | the loops of `hay_escalera` compute the straight of the specification |
| Poker.EvaluarMano | app/services/juegos/poker.py:223-308 | the loops of `evaluar_mano` compute the evaluation of the specification |
| Poker.EvaluarSinReal | app/services/juegos/poker.py:244-308 | the part after the royal test computes the specification's |
| Poker.EvaluarSinEscaleraColor | app/services/juegos/poker.py:272-308 | the part after the straight-flush test computes the specification's |
| Poker.DesempateGana | app/services/juegos/poker.py:443-450 | the player wins the kickers exactly when the lists agree up to a position where the player's is higher |
| Poker.DesempateSimetrico | app/services/juegos/poker.py:443-450 | swapping the kicker lists swaps the winner |
| Poker.EmpateIguales | app/services/juegos/poker.py:443-460 | kicker lists of equal length split the pot exactly when they are equal |
| Poker.VeredictoSimetrico | app/services/juegos/poker.py:433-460 | the showdown does not depend on which hand is the player's |
| Poker.Desempatar | app/services/juegos/poker.py:443-450 | the kicker loop with its breaks computes the tie-break of the specification |
| PokerMesa.AccionDe | app/services/juegos/poker.py:576-579 | the query string names an action exactly when it is one of "pasar", "igualar", "subir", "retirarse" |
| PokerMesa.Pagado | app/services/juegos/poker.py:127-133 | a payment between nothing and the chips left lowers the chips and raises the total bet by it; any other changes nothing |
| PokerMesa.Falta | app/services/juegos/poker.py:173-174 | what a side must add is never negative and is the gap to the street's bet when there is one |
| PokerMesa.Invertida | app/services/juegos/poker.py:205-219 | the cards popped off the end of the deck, in pop order, are those cards |
| PokerMesa.InvertidaPaso | app/services/juegos/poker.py:217-219 | popping one card more appends it after those already popped |
| PokerMesa.Repartida | app/services/juegos/poker.py:217-219 | dealing n community cards moves n cards from the deck to the end of the board, losing none and changing nothing else |
| PokerMesa.RepartidaEs | app/services/juegos/poker.py:217-219 | the board gains the last n cards of the deck in pop order and the deck loses them |
| PokerMesa.Privadas | app/services/juegos/poker.py:204-206 | each hand gets two cards and the deck loses four |
| PokerMesa.PrivadasConserva | app/services/juegos/poker.py:204-206 | the four dealt cards come from the deck: none is lost or made up |
| PokerMesa.Restantes | app/services/juegos/poker.py:204-219 | in a live hand the deck keeps the 48 cards minus those on the board |
| PokerMesa.InicialCorrecta | app/services/juegos/poker.py:183-215 | a new session is a live hand: the bank has posted the big blind (capped by its stack), the player nothing, and the player owes the blind |
| PokerMesa.Aportar | app/services/juegos/poker.py:511-639 | a side's payment goes to its street bet and to the pot, leaving the other side's bet alone |
| PokerMesa.TrasJugador | app/services/juegos/poker.py:605-641 | `pasar` is allowed exactly when nothing is owed, `igualar` when nothing is owed or the chips cover it, `subir` when the amount is between the minimum raise and the chips; otherwise 400; an allowed action marks the player as having acted |
| PokerMesa.JugadorCorrecta | app/services/juegos/poker.py:605-641 | an allowed action keeps the hand correct and the bank untouched; a call matches the bet; a raise sets it at least a big blind above |
| PokerMesa.Decidir | app/services/juegos/poker.py:501-544 | the bank never folds, never pays more than its chips, never checks when it owes nor calls when it owes nothing, and raises only with a pair or better |
| PokerMesa.FuerzaDe | app/services/juegos/poker.py:498-499 | the bank's strength is between 1 and 10 |
| PokerMesa.BancaCorrecta | app/services/juegos/poker.py:489-548 | the bank's action keeps the hand correct, leaves the player, the deck and the board alone and marks the bank as having acted |
| PokerMesa.AvanzadaCorrecta | app/services/juegos/poker.py:410-423 | moving on keeps the hand correct: the next street, its cards from the deck onto the board, and fresh street bets |
| PokerMesa.MazoIgual | app/services/juegos/poker.py:217-219 | moving cards between deck and board keeps the whole |
| PokerMesa.JugarCorrecta | app/services/juegos/poker.py:605-649 | after a request the hand is still correct; the street moved on with fresh bets, or the player has acted on it |
| PokerMesa.CierreCorrecta | app/services/juegos/poker.py:646-649 | closing a street both sides acted on keeps the hand correct, and moves on exactly when the bets are equal |
| PokerMesa.ValoracionDe | app/services/juegos/poker.py:223-308 | on distinct cards the evaluation's category is the standard one |
| PokerMesa.Manos | app/services/juegos/poker.py:427-498 | in a live hand each side sees 2, 5, 6 or 7 cards, never the 4 the evaluation rejects |
| PokerMesa.GananciaReparto | app/services/juegos/poker.py:433-465 | the reported gain: the winner nets what the other side paid in, the loser loses what it paid, a split nets half the difference |
| PokerMesa.ShowdownCuadra | app/services/juegos/poker.py:433-465 | with the buy-in debited up front, the corrected credit moves the balance by exactly the reported gain |
| PokerMesa.ShowdownDescuadra | app/services/juegos/poker.py:433-465 | as written a player who bought in for 200, bet 20 and won a pot of 40 ends 180 down though the reported gain is +20 |
| PokerMesa.RetiroCuadra | app/services/juegos/poker.py:585-603 | the corrected fold costs exactly what was bet; the credit as written costs more whenever chips were left |
| PokerMesa.RetiroDescuadra | app/services/juegos/poker.py:585-603 | as written a buy-in of 200 folded before any bet ends 200 down though the reported gain is 0; the corrected credit ends level |
| PokerMesa.RendicionCuadra | app/services/juegos/poker.py:680-689 | the corrected refund agrees with the source when nothing was bet and moves the balance by exactly the reported gain; as written a part bet loses the unbet chips too |
| PokerMesa.RendicionDescuadra | app/services/juegos/poker.py:680-689 | as written a buy-in of 200 with 20 bet refunds 10, leaving the balance 190 down, not the reported 10 |
| PokerMesa.Jugador.constructor | app/services/juegos/poker.py:109-115 | a side with no cards, its whole stack, still in the hand |
| PokerMesa.Jugador.RecibirCartas | app/services/juegos/poker.py:117-118 | only the cards are replaced |
| PokerMesa.Jugador.Retirar | app/services/juegos/poker.py:120-122 | out of the hand, last action "retirarse", nothing else |
| PokerMesa.Jugador.PuedeJugar | app/services/juegos/poker.py:124-125 | a side can play exactly while in the hand |
| PokerMesa.Jugador.Pagar | app/services/juegos/poker.py:127-133 | accepted exactly when the amount is between nothing and the chips left, which then drop by it and the total bet grows by it |
| PokerMesa.Jugador.TotalApostado | app/services/juegos/poker.py:135-136 | the chips gone from the starting stack, nothing before any bet |
| PokerMesa.Mesa.constructor | app/services/juegos/poker.py:154-165 | an empty table before the flop, big blind twice the small |
| PokerMesa.Mesa.ResetCalle | app/services/juegos/poker.py:167-171 | a new street with no bets and nobody having acted |
| PokerMesa.Mesa.ToCall | app/services/juegos/poker.py:173-174 | what a side owes, zero exactly when its bet reaches the street's |
| PokerMesa.Mesa.MeterAlBote | app/services/juegos/poker.py:176-177 | the pot grows by the amount |
| PokerMesa.Sesion.constructor | app/services/juegos/poker.py:183-199 | a new hand over the shuffled deck: the player has the buy-in, the bank twice it, private cards dealt and the blind posted |
| PokerMesa.Sesion.Robar | app/services/juegos/poker.py:205-219 | `pop` returns the last card and removes it |
| PokerMesa.Sesion.RepartirCartasPrivadas | app/services/juegos/poker.py:204-206 | the state after dealing is that of the specification |
| PokerMesa.Sesion.ProcesarBlinds | app/services/juegos/poker.py:208-215 | the bank posts the big blind, capped by its stack |
| PokerMesa.Sesion.RepartirComunitarias | app/services/juegos/poker.py:217-219 | n cards popped from the deck onto the board |
| PokerMesa.Sesion.Sacar | app/services/juegos/poker.py:218-219 | the loop appends each popped card to the board |
| PokerMesa.AvanzarCalle | app/services/juegos/poker.py:410-423 | the next street, its cards, then a fresh street |
| PokerMesa.CambiarCalle | app/services/juegos/poker.py:411-421 | 3 cards for the flop, 1 for the turn and the river, none for the showdown |
| PokerMesa.AbrirCalle | app/services/juegos/poker.py:412-419 | the new street is set and its cards turned |
| PokerMesa.Poner | app/services/juegos/poker.py:511-639 | a side's payment in the session as the specification says |
| PokerMesa.AccionJugador | app/services/juegos/poker.py:605-641 | the player's part in the session: refused with nothing changed, or the state of the specification |
| PokerMesa.AccionBanca | app/services/juegos/poker.py:489-548 | "espera" when the bank has acted or folded; otherwise it decides from its hand's category and the draw, pays and is marked as having acted |
| PokerMesa.Elegir | app/services/juegos/poker.py:501-544 | the branches compute the bank's decision of the specification |
| PokerMesa.DesenlaceCuadra | app/services/juegos/poker.py:551-664 | a hand that goes on is still correct and active; a hand that ends is finished with an empty pot, a non-negative credit and a gain between minus the buy-in and the bank's stake; as written a fold credits nothing and a showdown only a positive gain, so the balance never ends above the reported gain; under the corrected settlement it moves by exactly that gain |
| PokerMesa.FinCuadra | app/services/juegos/poker.py:426-474 | at the showdown the corrected credit is what the player nets and the credit as written is never more, with the gain between minus the buy-in and the bank's stake |
| PokerMesa.Sesiones.constructor | app/services/juegos/poker.py:13 | the session dictionary starts empty |
| PokerMesa.Vigentes | app/services/juegos/poker.py:315-327 | a sweep keeps exactly the entries at most two hours old, of either kind, unchanged |
| PokerMesa.LimpiarSesionesExpiradas | app/services/juegos/poker.py:315-327 | the two loops leave exactly the surviving entries |
| PokerMesa.ObtenerSesionPoker | app/services/juegos/poker.py:330-338 | 404 for an unknown id, 400 for another game's entry, 403 for another user's hand, otherwise that hand |
| PokerMesa.IniciarPoker | app/services/juegos/poker.py:363-407 | 422 below 1 with nothing swept; after the sweep 400 for a buy-in or a blind not permitted, 404 for a missing user, 400 for a short balance, with the balance untouched; otherwise the buy-in is debited and a new hand is stored |
| PokerMesa.Abrir | app/services/juegos/poker.py:385-407 | the buy-in is debited and a new hand dealt and stored |
| PokerMesa.Crear | app/services/juegos/poker.py:389-407 | a new hand dealt and stored, answered with the new balance |
| PokerMesa.Guardar | app/services/juegos/poker.py:392 | the hand is stored under its id |
| PokerMesa.Abonar | app/services/juegos/poker.py:385-690 | the balance moves by the amount and nothing else changes |
| PokerMesa.NuevaSesion | app/services/juegos/poker.py:389-407 | a correct new hand and the answer describing it |
| PokerMesa.RealizarAccion | app/services/juegos/poker.py:551-664 | after the sweep the session and user checks, then 400 for a finished hand, a folded player, a player who already acted on the street or an unknown action; otherwise the request plays out as `Desenlace` says, with the as-written or the corrected credits as the settlement chosen |
| PokerMesa.Actuar | app/services/juegos/poker.py:585-664 | an admitted request plays out as `Desenlace` says, under the settlement chosen |
| PokerMesa.Turno | app/services/juegos/poker.py:605-649 | the player's action, the bank's reply and the next street, or nothing changed when refused |
| PokerMesa.Retiro | app/services/juegos/poker.py:585-603 | the player folds, the hand ends with the pot emptied and is deleted, the reported gain is minus what was bet; as written nothing is credited, under the corrected settlement the unbet chips |
| PokerMesa.ResolverShowdown | app/services/juegos/poker.py:426-486 | the higher category wins and equal categories go to the kickers; as written the gain is credited when positive, under the corrected settlement the unbet chips and the share of the pot; the pot is emptied and the hand finished and deleted |
| PokerMesa.Comparar | app/services/juegos/poker.py:433-460 | the comparison computes the verdict of the specification |
| PokerMesa.Rendirse | app/services/juegos/poker.py:667-705 | after the sweep the session and user checks; then as written the refund is the buy-in when nothing was bet and half of what was bet otherwise, under the corrected settlement the unbet chips and half of what was bet; the gain reported is the same, and the hand is deleted |

## Left out

- Randomness: `random.*` and `uuid4` are parameters: the drawn card, die, reel, shuffled deck, mine layout, pool index, crash draw or session id. Where a random draw has a range, a `requires` restricts the parameter to it.
- The clock: `datetime.now`/`today` are integer or real timestamps passed in; time zones are a fixed offset.
- The database and ORM: `commit`, `rollback`, `refresh` and query semantics are maps from id to row. The order of a listing's `order_by` is not modelled. The rows a grouped SQL query returns (VIP draw) are a parameter tied to the table by a predicate.
- JWT, bcrypt, `get_current_user` and `verificar_admin` (app/api/auth.py is not part of this model): the caller's identity is a parameter; `iniciar_sesion`, `autenticar_usuario`, `authenticate_user` and the token helpers in app/crud.py are not modelled.
- E-mail: the verification e-mail background task and `verificar_estado_correo` in app/services/admin.py (HTTP to an outside service).
- File upload: `crear_solicitud_verificacion` in app/crud.py, and the receipt file that `realizar_deposito` writes: the model stores its path, not its bytes.
- Concurrency: the shared `game_sessions` dictionary (app/api/juegos.py is not part of this model) is modelled once per game, single-threaded. The `AttributeError` that the aviator and blackjack sweeps would raise on a poker session stored in the same dictionary is therefore not modelled. The `sorteo_en_proceso` flag is single-threaded state.
- Read-only views and constant endpoints, which compute nothing beyond their fields:
  - the configuration endpoints of dados, tragamonedas, tragamonedas2, cascadas (`obtener_configuraciones`), blackjack, aviator and poker (`leer_apuestas_permitidas`, `leer_blinds`);
  - `obtener_estadisticas*`, `obtener_historial`;
  - the minas `obtener_estado`, `get_config_minas`, `listar_sesiones_activas`, `test_endpoint` and `health_check`;
  - poker `obtener_estado`;
  - VIP `listar_participantes_vip`, `listar_participantes_detalle`, `get_next_draw` and `get_results`;
  - `obtener_info_usuario_actual` and `obtener_info_basica_usuario`;
  - crud `listar_usuarios`, `get_usuario_por_id` and `listar_verificaciones_completas`.
- VIP `resolver_sorteo` and `ejecutar_sorteo_manual`: a draw followed by rescheduling, which is what `Vip.RealizarSorteo` and `Vip.ProximoSorteo` state.
- Text, not computed with: `carta_dict`, `mano_dict`, `carta_a_dict`, `nombre_mano`, `ManoPoker.__repr__`/`nombre`, emoji, messages and the `movimientos` log lists.
- Floating point: float multipliers (minas 1.05-style bases, cascadas bonuses, blackjack 2.5, aviator curves) are exact reals. `int(x)` is the floor of a non-negative real, and `quantize` and `round(x, 2)` are rounding half to even of the exact value. Python's binary rounding can differ by one unit at a boundary; the percentages the probability endpoints publish are far from one.
- Unicode: `lower()` lowers only ASCII capitals. The model's `strip()` removes every character Python's `str.isspace` accepts. Unicode `isalnum` in the pydantic validators is not modelled.
- Query validation (`Query(..., ge=...)`) is a 422 answer before the handler, with nothing changed.
- Cascadas.JugarCascadas: the `while True` of `jugar_cascadas` ends only with probability one. The refill draws are a finite parameter, and a `requires` (predicate `Termina`) demands that they bring the grid to rest. A run that never comes to rest is not modelled. The same holds for Cascadas.JugarCascadasTalCual.
- app/services/inversion.py is not part of this model: every handler raises before doing anything.
- PokerMesa.AccionBanca: the model keeps two as-written behaviours. After a bank raise the player's acted flag stays set, so every further action on that street is refused. A short-stacked bank's "raise" may be below what it owes.
- PokerMesa.ValoracionDe: the category is stated to be the standard one only for hands of distinct cards, the only hands a correct session holds. Four cards raise ValueError in the source, and the model excludes them with `requires |cs| != 4`.
- RuletaEuropea.JugarRuletaEuropea: every bet's `monto` is taken to be a JSON integer present in its entry. A float `monto` passes the minimum check (app/services/juegos/ruletaeuropea.py:129) and then fails `user.saldo -= total_apostado` against the Decimal balance, a 500 before commit; a missing or non-numeric `monto` ends in a 500 too. Those answers are not modelled.
- RuletaEuropea.JugarRuletaEuropea: the bets are a `seq<Apuesta>` in the dictionary's iteration order. The source's `Dict[str, Dict]` holds one bet per kind, so a sequence that repeats a kind describes no request; the model settles such a sequence entry by entry and does not exclude it.
- Balances: `saldo` and the amounts stored as `Numeric(10, 2)` are exact reals. The database's rounding to cents on store and its overflow error above 10^8 are not modelled.
- Vip.Planificador.VerificarYEjecutar: the source calls `calcular_proximo_sorteo()` after the draw, which reads the clock again; the model reschedules from the same `ahora` the check used.
- Minas.AbrirCasillaSesion: the answer is the game's `Apertura` and the new balance. The source also returns `casillas_abiertas` (with each cell's count), `casillas_marcadas`, `minas_restantes`, `multiplicador_actual` and `ganancia_potencial`; these are views of the game's fields, which the contract states, and are not repeated in `RespuestaApertura`.

## Findings

| source | as written | input that shows it | evidently intended | confidence | as-written member | corrected member |
|---|---|---|---|---|---|---|
| app/services/juegos/bonus.py:32 | `ultima_recompensa == hoy` compares a `date` with a `datetime`, which is never equal, so the once-a-day guard never fires | a user claims, then claims again at the same instant | a second claim on the same day is refused with 400 | not executed | Bonus.ReclamoRepetido | Bonus.UnReclamoPorDia |
| app/services/admin.py:156 | `usuario` is read before it is assigned, so an `UnboundLocalError` (500) ends every administrator call before any guard | the administrator deletes any user id | 404 for an unknown user, 400 for "admin", otherwise the user and its records are deleted | not executed | Admin.AdminEliminarUsuario | Admin.EliminarUsuario |
| app/services/juegos/cascadastestris.py:364 | `user.saldo += ganancia_total` adds a float to a Decimal once a cascade has happened, a `TypeError` (500) before commit | any game whose first grid holds a combo | the total won is credited | not executed | Cascadas.JugarCascadasTalCual | Cascadas.JugarCascadas |
| app/services/juegos/poker.py:433-465 | the showdown credits only `ganancia` when it is positive, although the whole buy-in was debited, so the unbet chips are lost (`AbonoShowdownTalCual`) | buy-in 200, 20 bet, pot 40 won: the balance ends 180 down, the gain reported +20 | credit the unbet chips plus the share of the pot (`AbonoShowdown`) | not executed | PokerMesa.ShowdownDescuadra | PokerMesa.ShowdownCuadra |
| app/services/juegos/poker.py:585-603 | a fold credits nothing, so the unbet chips of the debited buy-in are lost (`AbonoRetiroTalCual`) | buy-in 200, fold before betting: the balance ends 200 down, the gain reported 0 | credit the unbet chips back (`AbonoRetiro`) | not executed | PokerMesa.RetiroDescuadra | PokerMesa.RetiroCuadra |
| app/services/juegos/poker.py:680-689 | after any bet the surrender refunds only half of what was bet, losing the unbet chips (`DevolucionTalCual`) | buy-in 200 with 20 bet: refund 10, the balance ends 190 down, the loss reported 10 | refund the unbet chips and half of what was bet (`Devolucion`) | not executed | PokerMesa.RendicionDescuadra | PokerMesa.RendicionCuadra |
