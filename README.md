# ldap_recon result rendering and search-base composition

ldap_recon binds to a directory server, reads the root naming context, then runs
each configured query and prints the entries it finds. This project models the
two pieces of that program that are plain logic:

- **The result renderer** (`resultentries_to_string`). It turns a list of decoded
  search entries into one string. For each entry it writes the coloured DN and a
  newline. Then it writes one line per attribute: the name, `": "`, the
  attribute's values written one after another with no separator, and a newline.
  It closes each entry with an empty line. The function has no error path: it
  always returns `Ok`.
- **Search-base composition**. Before a query runs, its `base_dn` field is
  completed in place by appending the root naming context verbatim.

Files:

- `Text.dfy` (module `Text`): strings built from pieces. `Concat` writes strings one
  after another with no separator. `JoinLines` writes lines, each followed by
  `'\n'`. `SplitLines` reads them back. `SplitJoinLines` proves the round trip for
  lines that hold no `'\n'`.
- `Rendering.dfy` (module `Rendering`): the entry datatypes, the specification of
  the output (`Render`, built entry by entry the way the renderer appends), the
  renderer itself as a method with nested loops over entries, attributes and
  values (`ResultEntriesToString`), and the lemmas about the output.
- `Queries.dfy` (module `Queries`): the `Query` record as a class whose `baseDn`
  is updated in place, and the loop that completes every query's search base.

The colouring of the DN (`Colour::Cyan.bold().paint(..)` from the `ansi_term`
crate) is not modelled. It is the parameter `paint: string -> string`, an
arbitrary function, so every property holds whatever the colouring produces.
Line-level properties assume that the painted DN, the attribute names and the
values hold no newline.

Facts about the program that the model keeps:

- Attributes are written in the order the entry's attribute map yields them
  (src/main.rs:51); they are not sorted. The model takes the given order as that
  order.
- Every value is written raw (src/main.rs:54); no value is decoded or reformatted.
- All values of one attribute share one line, with no separator between them
  (src/main.rs:52-56).
- `base_dn` and the root naming context are joined with no separator
  (src/main.rs:109). A configured `base_dn` that should end in a comma has to
  carry that comma itself.
- The queries run one after another, in configuration order (src/main.rs:106-112).

## Model

| member | source | states |
|---|---|---|
| Rendering.ResultEntriesToString | src/main.rs:39-61 | always returns `Ok`, never an error; the string is exactly `Render(rs, paint)`, built by appending in loops over entries, attributes and values; an empty entry list gives `Ok("")` |
| Rendering.RenderAppend | src/main.rs:41-59 | the output for `a + b` is the output for `a` followed by the output for `b`: each entry contributes its own block, in input order |
| Text.ConcatAppend | src/main.rs:53-55 | an attribute's values are written in order with nothing between them: joining `vs + ws` is joining `vs` and then `ws` |
| Rendering.AttributeLinesAreLines | src/main.rs:51-57 | the attribute part of a block is exactly one line `name: <values joined>` per attribute, in the order given; no attribute is dropped or reordered, and one with no values still gives `name: ` |
| Rendering.RenderSnoc | src/main.rs:41-59 | one more entry appends exactly that entry's block to the output |
| Rendering.BlockLines | src/main.rs:45-58 | an entry's block is the painted DN with one newline, its attribute lines, then one empty line |
| Rendering.BlockNewlines | src/main.rs:46-58 | when the painted DN, names and values hold no newline, a block holds exactly two newlines more than it has attributes |
| Rendering.RenderIsLines | src/main.rs:41-59 | the whole output is the lines of every entry's block written entry after entry, for all inputs |
| Rendering.RenderReadBack | src/main.rs:41-59 | when the painted DN, attribute names and values hold no newline, splitting the output at newlines gives back, per entry, its painted DN, its attribute lines in order and an empty line |
| Rendering.RenderNewlines | src/main.rs:41-59 | when the painted DNs, attribute names and values hold no newline, the output holds, in total, two newlines per entry plus one per attribute |
| Text.SplitJoinLines | src/main.rs:48-58 | newline-free lines written each with a `"\n"` terminator are read back exactly, so the rendered lines can be recovered |
| Queries.Query.constructor | src/main.rs:10-15 | a query holds a name, a search base, a filter and an attribute list |
| Queries.Query.AppendBaseDn | src/main.rs:109 | the new `baseDn` is the old one followed by the root naming context exactly, with no separator; `name`, `query` and `attr` are unchanged |
| Queries.ComposeSearchBases | src/main.rs:106-110 | when no search fails, every query in the configured list has its `baseDn` extended by the root naming context exactly once; no other field of any query changes |

## Left out

- LDAP connection, bind, search and unbind (`LdapConnAsync::new`, `simple_bind`, `ldap.search`, `run_query`, `get_dn`): network I/O in the `ldap3` library. The root naming context is a parameter of `ComposeSearchBases`.
- `SearchEntry::construct`, the BER decoding of raw results: a call into a foreign library. Entries are modelled as already decoded. The decoder also sets aside binary (non-UTF-8) values in a separate map that the renderer never prints. The model therefore covers only the text attributes.
- ANSI colouring via `ansi_term`: foreign formatting. It is the abstract parameter `paint`.
- The uniqueness of attribute names, which the decoded attribute map guarantees: the renderer does not depend on it, so the model accepts any list of attributes.
- The Tokio runtime, `.await` and the `ldap3::drive!` background task: concurrency plumbing.
- Command-line parsing with clap and loading the JSON configuration with serde: I/O and library glue. `ComposeSearchBases` starts from the already-loaded list of queries.
- `println!` of each query's name and result: I/O. Only the base-DN update of the loop in `main` is modelled.
- ComposeSearchBases: the program's loop runs each query's search right after extending its `base_dn` and returns at the first failing search (src/main.rs:110), so the queries after it keep their old `base_dn`; the model leaves the searches out and completes every query.
- The panics from `unwrap` and `[0]` in `get_dn`: they sit on the network-result path.
- Filter escaping in the sense of section 4 of RFC 2254 is mentioned in a comment only and is not implemented, so it is not modelled.
