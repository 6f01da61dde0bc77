# GreenLabs signalling server: verified model

GreenLabs is a WebSocket signalling server with an optional media relay (SFU), a
load client and a small TCP bridge. This project models its hard parts and proves
what they promise:

- the WebSocket frame codec, reader and writer on both ends (`Bytes`, `Frames`,
  `Reassembly`, `Protocolo`, `Connection`, `LoadClient`), the outbound queue under
  concurrency (`OutQueue`), and the two together (`Delivery`);
- the rooms hub: membership in every interleaving (`RoomSteps`), what clients
  rebuild of their room (`Rooms`), the gate in front of the SFU (`SfuGate`), and
  the sender stamp spliced into JSON text (`Json`, `JsonSplice`, `JsonText`, `Utf8`);
- the SFU: subscriptions (`Subscription`, `Anuncios`), renegotiation (`Negotiation`),
  the two together (`Midia`, `MidiaInvariante`, `MidiaResultados`, `MidiaContas`),
  trickle ICE (`Trickle`), key-frame requests (`KeyFrame`), the STUN walk (`Stun`);
- admission and shutdown (`Shutdown`) and the bridge's accounting (`Bridge`).

## How it is built

Code that several goroutines share is a transition system (`Runs.Sistema`): a
state with one program counter per goroutine, and one action for each atomic
operation of the code, that is, each section under a lock, atomic add, channel
operation, close, or call on a peer connection. A sequence of actions is one
interleaving, and the main results hold of every sequence. History that the code
does not keep (frames accepted, messages received) is kept in the state to state
results about it.

Beside the systems are classes with the source's fields and bodies. In `OutQueue`,
`SfuGate`, `Subscription`, `Negotiation`, `Trickle` and `Shutdown` a ghost trail
ties the two: `Valid()` says that the object's fields are those of the state the
trail reaches, and every operation of a body is recorded as the action it performs.
In `Rooms` and `Bridge` the methods are proved against the functions that the
system's actions apply. `KeyFrame.Faixa` is the limiter alone, proved against the
list of requests let through; `insistirNaChave` is only an action system, and so are
`RoomSteps` and `Midia`, which runs `Subscription` and `Negotiation` side by side.

Where a promise fails on some runs, a run that shows it is given as a lemma, and
another lemma says exactly which steps break it: the promise holds throughout a run
if and only if none of them is taken (`Runs.AoLongoSeESoSe`). The guards that rule
those steps out are then stated on what the caller of the step can see.

The transition functions take their branches from these lines:

- `OutQueue.AplicarAvanco`, `AplicarEscritor`, `Aplicar`: src/websocket.go:158-239
- `RoomSteps.Aplicar`: src/hub.go:179-220, 319-344
- `Rooms.Saiu`, `Entrou`, `Tratou`, `Repassado`: src/hub.go:114-152, 179-220, 266-312, 319-366
- `SfuGate.Aplicar`: src/hub.go:241-299
- `Subscription.Aplicar`, `ChaveDe`: src/sfu.go:383-401, 499-502, 516-531, 546, 574-585, 716-736, 846-863
- `Negotiation.Efeito`, `Proxima`, `Sessao1`, `Entra`: src/sfu.go:446-481, 666-670, 738-743, 767-807
- `Midia.Depois`, `Pedido`, `Neg1`: src/sfu.go:394-412, 529-531, 574-614, 666-670, 733-743
- `Trickle.Passo`: src/sfu.go:749-779, 810-865
- `KeyFrame.Passo`: src/sfu.go:53-61, 555-571, 642-644, 680-714
- `Shutdown.Passo`: src/sinalizacao.go:75-87, 118-171; src/websocket.go:158-161, 207-223
- `Bridge.Passo`: cmd/ponte/main.go:108-127, 149-153

Names of the source are kept in Portuguese; what they mean is said beside them.

Where the code and its documentation disagree, the model follows the code. The
comment at src/hub.go:159-161 says that a client cannot forge the sender because
the spliced field comes last. For text that starts with whitespace the function
returns it unchanged: `JsonSplice.SemCarimboComEspaco` is such a text, and
`JsonSplice.CarimboSeESoSe` says for which texts the promise holds. The hub relays
any text that is neither a ping nor a join, `peer-left` included, so a member can be
made to forget another: `Rooms.SaidaForjada` has the runs, and
`Rooms.VisaoCertaSeESoSe` and `Rooms.VisaoCertaPelaChave` the exact conditions.

## Model

| member | source | states |
|---|---|---|
| Bytes.BitFields | src/websocket.go:331-341 | the arithmetic reading of the FIN, MASK and RSV tests is the bit operation of the code |
| Bytes.LowBitFields | src/websocket.go:334-345 | the same for the opcode and 7-bit length masks, and for setting the top bit |
| Bytes.BigEndianRoundTrip | src/websocket.go:252-263 | an integer that fits k bytes reads back from its big-endian bytes |
| Bytes.PutBigEndianRoundTrip | src/websocket.go:351-369 | any bytes are the big-endian form of the integer they read as |
| Bytes.XorFields | src/websocket.go:389-391 | the exclusive or defined bit by bit is the machine's operation on bytes |
| Bytes.XorTwice | src/websocket.go:389-391 | exclusive or with the same byte twice gives the first byte back |
| Bytes.MascararTwice | src/websocket.go:389-391 | masking twice with one key gives the payload back |
| Frames.DecodificaTodoFio | src/websocket.go:331-395 | every legal client encoding of a valid frame (any key, any length form that fits, anything after it) decodes to exactly that frame and leaves the rest |
| Frames.SoDecodificaFio | src/websocket.go:331-395 | on arbitrary bytes, whatever is accepted was a wire form of a valid frame and nothing else was consumed |
| Frames.TamanhoLido | src/websocket.go:351-369 | each 7-bit length field and extension read a length that their form fits and that writes back to them |
| Frames.QualquerFio | src/websocket.go:346-378 | any masked frame, valid or not, whatever follows it: refused as an invalid control frame when it is one that is fragmented or has an extended length, as too big past 1 MiB, and otherwise taken |
| Frames.PrefixoTruncado | src/websocket.go:336-395 | no proper prefix of a valid frame is taken, or refused for anything but being cut short |
| Frames.SemMascaraRecusado | src/websocket.go:371-374 | an unmasked frame, as the server writes them, is refused for its missing mask, whatever follows |
| Frames.ReservadoRecusado | src/websocket.go:337-341 | bytes with a reserved bit set are refused for it, whatever else they say |
| Frames.FormaMinimaDiz | src/websocket.go:246-257 | the form both writers choose fits every length that any form fits, and none that fits takes fewer bytes |
| Frames.FioServidorDiz | src/websocket.go:241-272 | byte by byte: up to 125 bytes of payload go after a header of two bytes, up to 65535 after 126 and two bytes of length, and more after 127 and eight |
| Frames.NenhumMaisCurto | ferramentas/carga/main.go:70-94 | no bytes that the server reads as a frame are fewer than that frame in the form the load client writes |
| Reassembly.PassoCoerente | src/websocket.go:296-325 | one frame keeps montando and montagem exact and at most 1 MiB; a delivered message is the payload of the run of data frames it closes |
| Reassembly.LerCoerente | src/websocket.go:277-329 | one call on arbitrary bytes terminates, keeps montando true exactly while a started data message lacks its final fragment, keeps montagem its payload so far, and bounds buffer and message by 1 MiB |
| Reassembly.LerConsomeFios | src/websocket.go:277-329 | the bytes a successful call consumes are wire forms of the frames it took, in order, and no more |
| Reassembly.SessaoPorQuadro | src/websocket.go:277-329 | repeated calls see the stream one frame at a time |
| Reassembly.ConsumirConcat | src/websocket.go:277-329 | handling two lists of frames one after the other is handling their concatenation |
| Reassembly.LerOsBytes | src/websocket.go:277-395 | reading the bytes of any frames is handling those frames |
| Reassembly.ConsumirControles | src/websocket.go:283-295 | control frames between fragments leave the open message alone and enqueue one pong per ping with its payload, in order |
| Reassembly.ConsumirFragmentos | src/websocket.go:296-325 | any split of a message into fragments, with controls between, comes back whole |
| Reassembly.ConsumirMensagens | src/websocket.go:277-329 | the same for any list of messages |
| Reassembly.IdaEVolta | src/websocket.go:277-395 | reassembly round trip: any messages up to 1 MiB, any fragments, interleaved pings and pongs, keys and length forms come back as those messages in order with one pong per ping in order, and the loop ends only at the end of the stream |
| Protocolo.QuadroExato | src/websocket.go:283-325 | said of the frames alone: a frame is refused exactly for its reason (a close, a ping whose pong the queue refuses, a new message before the last one ended, a continuation without a start, a fragmented message past 1 MiB, an unknown opcode), and otherwise leaves open and completes what the frames so far say |
| Protocolo.LerExato | src/websocket.go:277-329 | one call on arbitrary bytes takes frames of the stream, none refused, up to the first that completes a message, or up to the first that is refused or cannot be decoded, and says why |
| Protocolo.SessaoExata | src/websocket.go:277-329 | on arbitrary bytes a session returns, in order, exactly the messages that the frames complete up to the first refused, and ends for its reason, or where decoding fails when none is |
| Protocolo.RecusadoEncerra | src/websocket.go:283-317 | the bytes of any frames taken, then of one that is refused for any of the reasons: the messages before it and that reason, whatever follows |
| Protocolo.FecharEncerra | src/websocket.go:298-300 | a close frame ends the session with exactly the messages before it, whatever follows |
| Protocolo.SoFecharEncerra | src/websocket.go:298-300 | on arbitrary bytes a session ends with io.EOF of a close if and only if a close frame comes after frames none of which is refused |
| Connection.Conn.LerTamanho | src/websocket.go:351-369 | the extended length is read from exactly its 0, 2 or 8 bytes |
| Connection.Conn.LerQuadro | src/websocket.go:331-395 | the method agrees with the specification of decoding, outcome and remaining stream |
| Connection.Conn.LerCorpo | src/websocket.go:380-391 | the key and payload are taken off the stream and unmasked, or there were too few bytes |
| Connection.Conn.Desmascarar | src/websocket.go:384-391 | the in-place unmasking loop computes the mask of section 5.3 of RFC 6455 |
| Connection.Conn.Ler | src/websocket.go:277-329 | the loop takes frames of the stream up to the one that completes the message returned, or to the first refused, for its reason, leaving its fields exact; a close is handed to the queue exactly when that frame is a close |
| Connection.Conn.Tratar | src/websocket.go:283-325 | the switch on one frame does to the fields what its specification says, and hands a close to the queue exactly for a close frame |
| Connection.Conn.EscreverQuadro | src/websocket.go:241-272 | the unfragmented, unmasked frame goes out after what was already sent, with two header bytes for up to 125 bytes of payload and a 16-bit length for up to 65535; when the deadline cannot be set or a write fails it reports so and a prefix of the frame went out |
| LoadClient.NenhumMenorQueODoServidor | ferramentas/carga/main.go:97-130 | whatever the client takes for a frame has at least as many bytes as the server's frame with that payload |
| LoadClient.Cliente.Enviar | ferramentas/carga/main.go:70-94 | the buffer built byte by byte is the masked text frame, with a 7-bit length for up to 125 bytes of text and a 16-bit one for up to 65535 |
| LoadClient.Cliente.ReceberTexto | ferramentas/carga/main.go:97-130 | the loop returns what its specification says and leaves the rest of the stream |
| LoadClient.ServidorLeOCliente | ferramentas/carga/main.go:70-94 | the server's reader returns exactly the texts the load client sent, in order, for texts up to 1 MiB |
| LoadClient.ReparteOFioServidor | ferramentas/carga/main.go:97-130 | the client splits a server frame back exactly in each length form |
| LoadClient.ClienteLeOServidor | ferramentas/carga/main.go:97-130 | over any concatenation of frames written by the server the client returns exactly the text payloads before the first close, in order, then the close, or the end of the stream when there is none |
| OutQueue.InvPasso | src/websocket.go:182-239 | every atomic operation keeps accounting, caps, order and results |
| OutQueue.ContabilidadeSempre | src/websocket.go:182-205 | in every interleaving bytesNaFila is payload bytes in the channel plus reservations not sent or undone plus the frame taken and not subtracted; never negative; admitted bytes never pass 2 MiB nor the channel 256 frames |
| OutQueue.EntregaEmOrdem | src/websocket.go:182-239 | in every interleaving the accepted frames, in order, are those written, then the one in the writer's hand, then the channel; each accepted once, by the call that returned nil |
| OutQueue.DrenagemCompleta | src/websocket.go:227-238 | when the drain ends everything accepted was written |
| OutQueue.RecusaFecha | src/websocket.go:189-204 | a refused call leaves the connection closed |
| OutQueue.DepoisDeFecharNadaEntra | src/websocket.go:183-187 | a call that starts after the close is never accepted, whatever runs in between |
| OutQueue.CadaUmOSeuResultado | src/websocket.go:182-205 | each call returns what its own select or limit decided, whatever runs in between: nil when the channel took its frame, a closed connection when it found it closed or lost the race with the close, a full queue when it passed 2 MiB or found no room |
| OutQueue.Conn.Enfileirar | src/websocket.go:182-205 | run alone, a call enqueues the frame, or reports a closed connection, or undoes its reservation and closes when a cap is passed |
| OutQueue.Conn.RecusarPorCheia | src/websocket.go:189-204 | the reservation is undone, the connection closed and a full queue reported |
| OutQueue.Conn.FecharConexao | src/websocket.go:158-161 | closing changes neither the queue nor the counter |
| OutQueue.Conn.Despachar | src/websocket.go:210-217 | the first frame is taken, its bytes subtracted, and it is written or lost with the failed write |
| OutQueue.Conn.Escritor | src/websocket.go:208-239 | the writer's loop stops, while no write fails, only with the queue empty and everything accepted written |
| Delivery.ClienteVePrefixo | src/websocket.go:182-272 | end to end, in every interleaving: the load client reading the bytes written so far returns the texts of a prefix of the accepted frames up to its first close, in order of acceptance, then the close if there is one |
| Delivery.DrenagemEntregaTudo | src/websocket.go:225-239 | after the drain on close it returns the texts of all of them, up to the first close |
| Json.ValorEstavel | src/hub.go:162-175 | a value reads the same from two texts that agree where it lies |
| Json.MembrosEstaveis | src/hub.go:162-175 | the same for the members of an object |
| JsonSplice.LeOCarimbo | src/hub.go:167-170 | the spliced text reads as one member, the sender |
| JsonSplice.MembrosMaisCarimbo | src/hub.go:171-174 | members followed by the spliced text read as those members and the sender |
| JsonSplice.CarimboPreserva | src/hub.go:162-175 | for every JSON object text whose first byte is its brace, with any trailing whitespace, the result reads as the same members in the same order followed by from |
| JsonSplice.CarimboSeESoSe | src/hub.go:162-175 | among texts that read as objects the stamp is there if and only if the first byte is the brace; otherwise the text is passed on unchanged |
| JsonSplice.SemCarimboComEspaco | src/hub.go:164-166 | one leading space is enough for the client's own from to be the one that is read |
| JsonSplice.LeitorVeORemetente | src/hub.go:159-161 | a last-key-wins reader, with any decoding of key strings, sees the server's sender and every other key unchanged |
| JsonSplice.EspacoInicialDiz | src/hub.go:168-170 | the bytes that start a text are trimmed exactly when they encode a rune that unicode.IsSpace holds of |
| JsonSplice.SoEspacosDiz | src/hub.go:168-170 | in UTF-8 text trimming leaves nothing if and only if every rune is white space |
| RoomSteps.InvPasso | src/hub.go:179-220 | every locked section keeps the membership invariant |
| RoomSteps.MembrosSempre | src/hub.go:179-220 | in every interleaving a peer is in at most one room's map, exactly when its p.sala says so or it is between the two sections of leaving that room; no room is empty outside the lock and none passes limitePorSala |
| RoomSteps.SaidaEncontraASala | src/hub.go:329-344 | when Sair takes the hub's lock the room is there and holds the peer |
| RoomSteps.EntraSeHaLugar | src/hub.go:194-220 | in every interleaving a peer gets its place if and only if the room has one when its goroutine takes the hub's lock; otherwise p.sala is cleared again |
| RoomSteps.TodosSeguem | src/hub.go:179-220 | whatever the others do, a goroutine in the middle of a join or a leave has at most four sections to go, and one to take while it has any |
| Rooms.SalaPedidaDiz | src/hub.go:182-185 | the room asked for is the id without the white space around it, or the default when nothing is left |
| Rooms.NomePedido | src/hub.go:186-192 | the name used is the first 40 runes of the one given, all of it when shorter, or the default for none |
| Rooms.PosicoesMantidas | src/hub.go:179-220 | whatever is handled, a peer is in a room's map exactly when its p.sala names the room, and no room is empty or passes the limit |
| Rooms.SaidaExata | src/hub.go:319-366 | a departure keeps every remaining member's rebuilt view exact |
| Rooms.EntradaExata | src/hub.go:194-312 | a join keeps every view exact and gives the newcomer an exact one |
| Rooms.ContagemDaEntrada | src/hub.go:213-312 | every count announced is the size of the room at that join, one more than the newcomer's list |
| Rooms.RepasseExato | src/hub.go:129-151 | a relay keeps every view exact if and only if the text delivered does not change what the addressed client shows |
| Rooms.PassoExato | src/hub.go:114-152 | any message or departure keeps views exact if and only if it does not relay such a text |
| Rooms.VisaoCertaSeESoSe | src/hub.go:114-366 | view coherence, for every way of reading text: folding joined, peer-joined and peer-left by type over what a member was sent gives at every moment exactly the ids and names of the others in its present room, across leaves, re-joins and room changes, if and only if no client is relayed a text read as one of the three that changes what it shows |
| Rooms.ComChaveNaoMuda | src/hub.go:162-175 | a text that starts with its brace goes stamped, and a client that passes over stamped texts is not changed by it |
| Rooms.VisaoCertaPelaChave | src/hub.go:114-366 | for clients that pass over stamped texts views are exact at every moment if and only if every relayed text that changes what a client shows started with its brace |
| Rooms.VisaoSempreCerta | src/hub.go:114-366 | so when every relayed text starts with its brace such clients always show their room as it is |
| Rooms.ForjaSaida | src/hub.go:129-151 | from any room with exact views, a relayed text read as another member's peer-left takes it out of the view of the member addressed |
| Rooms.SaidaForjada | src/hub.go:129-151 | runs that do so: with a text that starts with its brace for a client that folds by type, and with a blank first for one that passes over stamped texts |
| Rooms.RepasseDeConhecido | src/hub.go:129-151 | a relay reaches only the addressed member of the sender's room, stamped when its text starts with its brace and otherwise as it came, and while that member's view is exact it shows the sender under its name |
| Rooms.PingRespondido | src/hub.go:121-122 | a ping adds exactly one pong to the sender's queue and changes no other queue, room, name or p.sala |
| Rooms.RepasseOuNada | src/hub.go:114-152 | what is not JSON changes nothing; a relay changes nothing when the sender is in no room or names nobody, the SFU, or nobody of its room, and otherwise adds its text to that member's queue and changes nothing else |
| Rooms.UmPongPorPing | src/hub.go:370-397 | over any run each peer's queue has got exactly one pong for each of its pings |
| Rooms.Hub.Listar | src/hub.go:214-217 | the slice lists each member once |
| Rooms.Hub.EnviarATodos | src/hub.go:310-312 | each listed peer is sent the message once and nobody else is |
| Rooms.Hub.Nomear | src/hub.go:266-281 | the list sent to the newcomer pairs the ids with the names read then, in the listed order |
| Rooms.Hub.Retirar | src/hub.go:329-359 | the peer leaves the room's map, an emptied room goes, and the rest are told |
| Rooms.Hub.Sair | src/hub.go:319-366 | the whole departure, against its specification |
| Rooms.Hub.Chegar | src/hub.go:194-217 | the newcomer takes its place and the room is listed without it |
| Rooms.Hub.Admitir | src/hub.go:218-312 | the newcomer enters the map, is sent joined, and those listed are told |
| Rooms.Hub.Recusar | src/hub.go:201-207 | a full room clears p.sala again and rejects the connection |
| Rooms.Hub.Instalar | src/hub.go:194-312 | the join after its Sair, full room included |
| Rooms.Hub.Entrar | src/hub.go:179-312 | the whole join, against its specification |
| Rooms.Hub.Tratar | src/hub.go:114-152 | the dispatch of a message, against its specification: a ping adds one pong to the sender's queue, what is not JSON or has no addressee changes nothing, a relay delivers the client's own text, stamped or as it came |
| Rooms.Hub.NovoPeer | src/hub.go:91-95 | a new peer is in no room, has no name and has been sent nothing |
| SfuGate.InvPasso | src/hub.go:241-299 | every section of the gate keeps messages held, flushed or enqueued exactly once |
| SfuGate.NadaAntesDoJoined | src/hub.go:246-299 | in every interleaving joined is the first message of the join to be enqueued and the only one of its kind, and nothing of the session follows unless Entrar succeeded and the gate was opened |
| SfuGate.CadaMensagemUmaVez | src/hub.go:246-299 | after the flush each message given to the callback and finished was enqueued exactly once, stamped as the SFU's, and nothing else was |
| SfuGate.Portao.EnviarDoSfu | src/hub.go:246-258 | a callback run alone enqueues its stamped message when the gate is open and otherwise holds it |
| SfuGate.Portao.Concluir | src/hub.go:259-299 | the rest of the join run alone enqueues joined, then what was held in order when the SFU accepted, and never opens the gate when it did not |
| Subscription.BaseMantida | src/sfu.go:383-401 | every section under a lock keeps references to existing objects of one room, and a pair waiting in one goroutine at most and not once it is subscribed, whatever ids are announced |
| Subscription.NuncaDuasVezes | src/sfu.go:516-531 | so in every interleaving no pair waits twice, or waits and is subscribed |
| Subscription.InscricaoPerdidaSeESoSe | src/sfu.go:383-401 | no missed subscription, exactly: in every interleaving and whatever ids are announced, each session in a room and each live track of another owner is at every moment subscribed or waiting in a goroutine, if and only if assinar never finds the id of such a pair taken and removerFaixa never deletes the entry of another such track |
| Subscription.AssinaSeESoSe | src/sfu.go:580-584 | an open session handed a track is subscribed to it if and only if the id is not in saidas |
| Subscription.InscritaAteRetirar | src/sfu.go:733-736 | over any run from any state, a session keeps the entry of a track it holds, also after it leaves or the track is off the air, if and only if no removal of a track with the same id, that one or another, reaches it |
| Subscription.LivreNaoPerde | src/sfu.go:516-531 | when tracks are announced under ids out of use in their room, neither of the two losing steps can be taken |
| Subscription.NenhumaInscricaoPerdida | src/sfu.go:516-531 | so with each track announced under an id that no session of the room holds and no goroutine has left to handle there, no subscription is missed |
| Subscription.SemTrabalhoTodosInscritos | src/sfu.go:383-401 | with no losing step taken and no snapshot left to work through everyone in a room has every track of the others |
| Subscription.ChaveRepetidaPerde | src/sfu.go:499-502 | a run in which a member announces one id for two tracks on the air and a viewer never gets the second |
| Subscription.RepublicarInscreve | src/sfu.go:716-736 | a run in which an id comes back after its first track was removed and the viewer gets the second |
| Subscription.PrimeirasDizem | src/sfu.go:394-401 | of the tracks listed for a newcomer exactly those that come first under their id are subscribed |
| Subscription.Retransmissor.AssinarFaixa | src/sfu.go:574-585 | nothing on a closed session or under an id already there, otherwise the track is entered |
| Subscription.Retransmissor.EntrarNaSala | src/sfu.go:383-401 | run alone, the newcomer's session holds the first of the others' tracks under each id and replaces any session of the peer |
| Subscription.Retransmissor.AoReceberFaixa | src/sfu.go:485-531 | run alone, with any announced id, the track is stored under its owner's id and exactly the other members present are given it where the id is free |
| Subscription.Retransmissor.Espalhar | src/sfu.go:529-531 | each session of the snapshot, in any order, and no other, is given the track where its id is free |
| Subscription.Retransmissor.FiltrarNoLugar | src/sfu.go:718-723 | the slice filtered in its own storage holds the tracks but the removed one, in order |
| Subscription.Retransmissor.TirarDoAr | src/sfu.go:717-731 | the track leaves its room and the others stay in order; the snapshot is the other members |
| Subscription.Retransmissor.RemoverDaSala | src/sfu.go:716-736 | exactly the sessions of the snapshot lose the track's id |
| Subscription.Retransmissor.SairDaSala | src/sfu.go:846-863 | the session leaves and is closed, and an emptied room loses its tracks |
| Subscription.Retransmissor.Encerrar | src/sfu.go:861-863 | the departed session, and only it, is marked closed |
| Anuncios.IdsDoDono | src/sfu.go:499-502 | the outgoing ids of one owner's tracks are equal if and only if the announced ids are, with the kind where nothing was announced |
| Anuncios.IdsDeDois | src/sfu.go:499-502 | for owners of at least 8 characters, ids are equal if and only if the first 8 characters are and what was announced |
| Anuncios.DuasFaixasChegam | src/sfu.go:485-531 | in every interleaving, two tracks of one owner announced under different ids, as its audio and its video, are both subscribed by an open session that both are on their way to and that holds neither id, unless another track is handed to it under one of the ids or one of them is taken from it |
| Anuncios.IdsDistintosTudoInscrito | src/sfu.go:485-531 | when no owner in a room announces an id twice and owners differ in their first 8 characters, no subscription is missed in any interleaving |
| Negotiation.InvPasso | src/sfu.go:446-481 | whatever the client sends, every step keeps one offer in the making, offers and answers in turn, and an offer about to be set that misses a sender followed by another |
| Negotiation.OfertasAlternam | src/sfu.go:454-473 | in every interleaving, whatever the client sends and whenever, offers set and answers accepted strictly alternate, our offer is out exactly after an offer, and at most one goroutine is making one |
| Negotiation.CadaOfertaAnunciada | src/sfu.go:462-480 | only offers that were set are announced, and each of them once: over any run the offers set are the announcements made and those still to come |
| Negotiation.CadaCausaUmEfeito | src/sfu.go:446-481 | over any run the note is taken once for each answer accepted, each client offer accepted is answered once, and oferecer is called once for Entrar, for each change of senders and for each note taken, counting what is still to come |
| Negotiation.OfertaEstavelSeESoSe | src/sfu.go:454-472 | an offer being made finds the state stable at every moment if and only if no client offer is accepted while one of ours is being made |
| Negotiation.AvisoPerdidoSeESoSe | src/sfu.go:781-794 | no lost wake-up, exactly: a session whose senders are not those last offered has at every moment an offer due, in the making, or noted with an answer to read the note, if and only if neither of two steps is taken: the last call due finds the session busy with no offer in the making or out and no answer just accepted, so that nobody will read its note; or an offer fails or is refused with no other call due and no note that an answer is about to take |
| Negotiation.NotaTemLeitor | src/sfu.go:454-458 | a call due on an open session leaves every note to be read if and only if an offer is in the making or out, an answer was just accepted, or the call makes the offer itself; oferecendo held past the answer to its offer does not count |
| Negotiation.OfertaRecusada | src/sfu.go:468-476 | an offer that fails, or is refused by SetLocalDescription, is made up for if and only if nothing is missing, a call is due, or a note was left that an answer just accepted is about to take |
| Negotiation.NenhumAvisoPerdido | src/sfu.go:781-794 | while nothing from the client is accepted as an offer is being made, no call starts while a client offer is being answered, and offers fail only outside the stable state, no wake-up is lost, and a note has its reader or an offer in the making whose answer will read it |
| Negotiation.QuietaTudoOferecido | src/sfu.go:781-794 | with no losing step taken, in a quiet stable state every sender has been offered |
| Negotiation.SemRespostaCedoNadaSePerde | src/sfu.go:767-794 | a client that sends no offers but answers at any time keeps the order as long as no answer is accepted while oferecendo and offers fail only outside the stable state |
| Negotiation.RespostaCedoPerde | src/sfu.go:767-794 | and it must be so: from any open session where an answer can be accepted while the offer still holds oferecendo, and nothing else is due, a run loses a track |
| Negotiation.SoRespostasTudoOferecido | src/sfu.go:446-481 | a client that sends no offers and one answer to each offer announced keeps the order while offers fail only outside the stable state, so a session quiet with it has offered everything |
| Negotiation.SobreposicaoEsquece | src/sfu.go:797-806 | a run with an overlapping client offer that ends quiet and stable with a sender never offered |
| Negotiation.RespostaCedoEsquece | src/sfu.go:767-794 | a run with no client offer that ends the same way: a publisher's goroutine makes the offer, and an answer nobody asked for is accepted before oferecendo is released |
| Negotiation.Sessao.Oferecer | src/sfu.go:446-481 | a due call does nothing when closed, leaves a note when an offer is out or being made, and otherwise offers exactly the present senders |
| Negotiation.Sessao.FazerOferta | src/sfu.go:462-473 | the offer made and set is of the present senders, and the mark is released |
| Negotiation.Sessao.DescricaoResposta | src/sfu.go:767-794 | an answer at any time: once accepted the note is taken and, when there was one, the next offer goes out at once, or is noted again while one is being made |
| Negotiation.Sessao.TomarPendencia | src/sfu.go:784-788 | the note is taken and cleared, and whoever took it has an offer due |
| MidiaInvariante.InvMantido | src/sfu.go:394-412 | every step of a goroutine on the maps, on a peer connection or in a negotiation keeps the two machines in step: each goroutine has done to the connection what its last step called for before its next, Entrar's offer stays due while it works through its list, a pair that waits has no sender yet, and offers carry only others' tracks of the room |
| MidiaResultados.NinguemTrava | src/sfu.go:574-614 | in every interleaving a goroutine with something to do to a peer connection can do it, and one with nothing to do can take its next step on the maps |
| MidiaResultados.SoFaixasDosOutros | src/sfu.go:516-531 | rooms are kept apart and nobody gets their own tracks back: in every interleaving, whatever ids are announced and whatever clients send, a session has senders for, and was offered, only tracks of other owners in its room |
| MidiaResultados.FaixaPerdidaSeESoSe | src/sfu.go:574-614 | no track is lost on its way, exactly: in every interleaving each live track of another owner in a session's room is at every moment waiting in a goroutine, about to get a sender or has one, and a session whose senders are not those last offered has an offer to come, if and only if assinar never finds the id of such a track taken and the negotiations take no losing step |
| MidiaResultados.ChegaExatamente | src/sfu.go:383-412 | end to end: with no losing step taken, a session in its room, quiet and stable, with nothing on its way to it, has been offered, of the tracks on the air, exactly those of the others in its room |
| MidiaResultados.EmOrdemTudoChega | src/sfu.go:446-481 | so with ids out of use in their room when announced and negotiations in order nothing is lost, and that holds of every such session |
| MidiaContas.UmaChamadaPorCausa | src/sfu.go:394-412 | in every interleaving oferecer is called for a session once for its Entrar, however many tracks that subscribes, once for each track then handed to it, whether or not it takes it, once for each removal that finds the sender there, and once for each note taken, and by nothing else |
| Trickle.CandidatosEmOrdem | src/sfu.go:749-779 | while the session is up the candidates added are the first at most 256 non-empty ones received before the first accepted description, then every later one, in arrival order |
| Trickle.CandidatosGuardados | src/sfu.go:831-837 | before that none is added and the first 256 are held |
| Trickle.NuncaForaDeOrdem | src/sfu.go:826-839 | at every moment, also inside a call and while the session is taken down: a prefix of what is due, at most 256 held, none held once a description is set and its candidates collected |
| Trickle.Sessao.Candidato | src/sfu.go:810-843 | one candidate is ignored, held, dropped past 256, or added |
| Trickle.Sessao.Descricao | src/sfu.go:749-779 | an accepted description releases the held candidates in order |
| Trickle.Sessao.Sair | src/sfu.go:846-863 | taking the session down closes it and adds nothing |
| KeyFrame.AceitosEspacados | src/sfu.go:53-61 | for any order of calls the requests let through are pairwise at least 500 ms apart |
| KeyFrame.JanelaLimitada | src/sfu.go:53-61 | any window of length W holds at most W/500 ms + 1 of them |
| KeyFrame.NinguemEsperaMais | src/sfu.go:53-61 | when calls come in order of time each finds a request let through less than 500 ms before it or is let through |
| KeyFrame.PedidosEspacados | src/sfu.go:555-571 | both bounds for every interleaving of viewers and repeating goroutines |
| KeyFrame.UmaRepeticao | src/sfu.go:680-693 | at most one repeating goroutine is live, and one exactly while repetindoChave is set |
| KeyFrame.TresPedidos | src/sfu.go:694-712 | a repeating goroutine asks at most three times, at least 500 ms and then 1.5 s apart |
| KeyFrame.NoArPedeTres | src/sfu.go:699-712 | in every interleaving a repeating goroutine that ended while the track never went off the air asked exactly three times |
| KeyFrame.ForaDoArNadaMais | src/sfu.go:699-711 | after the track goes off the air a goroutine makes at most the one request it was already about to make, and one that starts later none |
| KeyFrame.CadaChamadaConsulta | src/sfu.go:555-571 | over any run the requests brought to the limiter, with those about to be, are as many as the calls that found a video track and its owner present |
| KeyFrame.TodasAcabam | src/sfu.go:680-714 | no goroutine takes more than 13 steps in any interleaving, so each ends |
| KeyFrame.InsistirRepete | src/sfu.go:681-687 | after any call of insistirNaChave exactly one repeating goroutine is at work |
| KeyFrame.TresAcontecem | src/sfu.go:694-712 | a run in which a repeating goroutine asks at once, 500 ms later and 1.5 s after that, and the limiter lets all three through |
| KeyFrame.Faixa.PermitirChave | src/sfu.go:53-61 | the method lets through exactly the requests of the specification |
| Stun.PercorrerAtributos | src/sfu.go:283-312 | on arbitrary bytes the loop stays in bounds, terminates, and finds what the specification finds |
| Stun.LerResposta | src/sfu.go:276-312 | a response shorter than the header yields nothing, any other is walked from its attributes |
| Stun.UmAtributo | src/sfu.go:285-310 | one attribute: its address when it maps one, otherwise on after its padding |
| Stun.EnderecoDiz | src/sfu.go:293-300 | an attribute maps an address exactly when its type is 0x0020, its value has at least 8 bytes and its family is 0x01, and the address is bytes 4 to 7 with the magic cookie taken off |
| Stun.AchaOPrimeiro | src/sfu.go:283-312 | over any well-formed padded attributes, whatever follows, the walk returns the address of the first IPv4 XOR-MAPPED-ADDRESS |
| Stun.DevolveOEnderecoMapeado | src/sfu.go:293-300 | the address a server mapped by section 14.2 of RFC 8489 is the one returned |
| Stun.SoDevolveMapeado | src/sfu.go:283-312 | on arbitrary bytes an address is returned only from an IPv4 XOR-MAPPED-ADDRESS in the bytes, after well-formed attributes none of which is one |
| Shutdown.InvPasso | src/sinalizacao.go:118-171 | every step of handlers, writers and closers keeps the invariant |
| Shutdown.VagasExatas | src/sinalizacao.go:119-126 | occupied slots are the handlers that hold one, never more than the capacity |
| Shutdown.NinguemEscapa | src/sinalizacao.go:75-87 | once a call of Fechar has been through its list every connection ever accepted is closed, with its socket closed or about to be by its writer, or its handler has yet to check encerrando or is closing it after that check |
| Shutdown.FimSemSobras | src/sinalizacao.go:118-156 | when no handler runs no slot is held, the registry is empty and every accepted connection is closed |
| Shutdown.EncerrandoNaoRegistra | src/sinalizacao.go:132-140 | after Fechar took its list nothing enters the registry |
| Shutdown.Servidor.FecharConexao | src/sinalizacao.go:84-87 | one connection of the list is closed, and its socket |
| Shutdown.Servidor.Encerrar | src/sinalizacao.go:77-83 | the flag is set and the list is what is registered |
| Shutdown.Servidor.Fechar | src/sinalizacao.go:75-87 | what is registered is closed, and nothing else |
| Shutdown.Servidor.TomarVaga | src/sinalizacao.go:119-126 | a slot is taken when one is free, otherwise the request is refused |
| Shutdown.Servidor.FecharTarde | src/sinalizacao.go:133-138 | a connection accepted during shutdown is closed and not registered |
| Shutdown.Servidor.Servir | src/sinalizacao.go:139-151 | the connection is registered until its reading ends |
| Shutdown.Servidor.Despedir | src/sinalizacao.go:141-156 | the deferred calls close it and take it out of the registry |
| Shutdown.Servidor.AtenderWebSocket | src/sinalizacao.go:118-171 | a handler run alone leaves slots and registry as they were, with the outcome its three checks give and the connection closed if accepted |
| Bridge.DevolverDesfaz | cmd/ponte/main.go:108-127 | giving back undoes reserving, entry and all |
| Bridge.InvTotais | cmd/ponte/main.go:108-127 | every step keeps total the number of holders and the sum of porIP |
| Bridge.InvConta | cmd/ponte/main.go:108-127 | every step keeps each address's entry positive and its count of holders |
| Bridge.ContasCertas | cmd/ponte/main.go:149-153 | in every interleaving of handlers: total is the sum of porIP and the number of holders, an address has an entry exactly while it holds places and the entry counts them, and neither limit is passed |
| Bridge.EntraSeCabe | cmd/ponte/main.go:108-117 | in every interleaving a handler gets its place if and only if fewer handlers than the limit hold one, in all and from its address |
| Bridge.CadaUmDevolve | cmd/ponte/main.go:149-153 | over any run there is a handler for each connection, and as many places were given back as handlers that did so |
| Bridge.Ponte.Reservar | cmd/ponte/main.go:108-117 | refused exactly when a limit is reached, otherwise both counts go up by one |
| Bridge.Ponte.Devolver | cmd/ponte/main.go:119-127 | both counts go down by one and an entry that reaches zero is deleted |
| Bridge.Ponte.Atender | cmd/ponte/main.go:149-153 | a handler run alone leaves the accounts as they were |

## Left out

- Negotiation: the signalling state decides what SetRemoteDescription may accept; whether it does accept, and when the client sends what, is arbitrary. After Close nothing is claimed. An answer may be accepted here also while Entrar makes its first offer, which the one goroutine that reads a client's messages rules out.
- Midia: a goroutine goes on to the next session of its snapshot without waiting for the offer it owes to the last, so every order of the code is a run, and some more. Tracks off the air are outside `MidiaResultados.ChegaExatamente`, since Entrar can add a sender after removerFaixa has passed.
- Subscription: AddTransceiverFromTrack succeeds; its failure takes the entry back and the track is not sent.
- Ghost subscriptions: Entrar can subscribe from a snapshot after removerFaixa has passed; only missed subscriptions are ruled out.
- A connection-state callback of an earlier session that calls Sair after the peer re-joined (src/sfu.go:377-380): Sair is an action that may happen at any time, so nothing is claimed about members keeping an SFU session.
- Anuncios.IdsDeDois: owners of fewer than 8 characters are left aside; peers' ids are UUIDs (src/util.go:82-94).
- Subscription: `salas` is keyed by room and peer together instead of nesting two maps; sessions and tracks are named by the order of their creation.
- Rooms.VisaoCertaSeESoSe: one message or departure is handled at a time and no queue drops; at finer grain another peer's notice can overtake `joined`, which is enqueued after the hub's lock is released. A peer rejected from a full room is taken to send nothing more, its connection being closed.
- Rooms: the hub's own notices are read as what they say, so how their JSON text is written is not modelled; what json.Unmarshal reads in a client's text, with keys matched ignoring case, is given beside the text.
- Rooms.Hub: a room's map from id to peer is its key set, looked up in one table of all peers; the `pingMs` and `sfu` fields of `joined`, round-trip times and `room-pings` are not modelled.
- SfuGate.CadaMensagemUmaVez: conservation, not order: a callback that finds the gate open may overtake the flush, as in the code.
- Trickle: the candidates and descriptions of one peer come from its one reading goroutine, one call after another; what AddICECandidate does with a candidate is not modelled.
- KeyFrame: the zero time that marks a track never asked about is `None`; time differences do not saturate. Whether a track is video and its owner present is one flag that may change at any time.
- Stun.LerResposta: the request's cookie is a precondition; the code itself does not check the response's type, length or transaction id, and neither does the model. Formatting the address as text is left out.
- Shutdown: HTTP Shutdown, the hub's Parar, logging and the heartbeat goroutine; the read loop is one step that ends at any time.
- Bridge: address validation, dialling, hijacking and the byte copying.
- Connection: the callback on pong; a read deadline is the end of the stream, and the outbound queue is seen by the reader only through whether it accepted each pong and that a close was handed to it.
- OutQueue: the counter is unbounded, not 64 bits wide; that no frame follows a close frame is not claimed, since it does not hold.
- LoadClient.ServidorLeOCliente: the client's fixed key is used as it is; random keys are covered by `Reassembly.IdaEVolta`.
- JsonSplice: numbers, strings and nesting are read as RFC 8259 text; nesting depth limits and the decoding of escapes belong to the reader, which may use any decoding of keys.
- Peer-connection internals, SDP texts, RTP packets and bandwidth feedback: the peer connection is its signalling state, senders, and whether a description is set.
- HTTP handshake, JSON status endpoints, environment and flag parsing, console, terminal, tunnel and container scripts.
