# KOffice chart shape: data, parameters and ODF round trips

This project models, in Dafny, the bookkeeping core of the KOffice chart
component. It covers five pieces:

- **The KDChart value cell** (`KDChartData`): a tagged value that is empty, a
  string, a double or a date-time, with its accessors, its equality and
  `clearValue`.
- **The KDChart parameters** (`KDChartParams`):
  - the map from dataset number to source mode and chart, assigned and queried
    by ranges, and the search for a run of datasets;
  - the data colours and their wrap-around lookup;
  - the default axes;
  - the XML helpers that write and read pen styles, booleans, integers,
    colours, colour maps and chart values.
- **The chart table model** (`ChartTableModel`), which loads the cells of an
  ODF `table:table` element.
- **The chart shape** (`ChartShape`):
  - the ODF chart classes and default subtypes;
  - font weights, the default dataset palette, and label and data saving;
  - the resolution of an embedded document's `xlink:href`;
  - the title, subtitle and footer visibility and `reset`.
- **The proxy model** (`ProxyModel`), which presents a source table with
  optional label row and label column, in either data direction.

A separate module proves that the table that `ChartShape::saveOdfData` writes
is loaded back by `ChartTableModel::loadOdf` into the same cells.

Modules and files:

| module | file | models |
|---|---|---|
| `Base` | base.dfy | option type, `uint`, doubles as bit patterns, colours, variants, `QString::number(int)` / `toInt` |
| `Xml` | xml.dfy | a DOM tree and a writer with an open-element stack |
| `ChartValues` | chart_data.dfy | kchart/kdchart/KDChartData.h |
| `QMaps` | qmaps.dfy | `QMap<uint, V>` as a key-sorted sequence |
| `ChartParams` | chart_params.dfy | kchart/kdchart/KDChartParams.cpp, state and queries |
| `ParamsXml` | params_xml.dfy | kchart/kdchart/KDChartParams.cpp, XML node helpers |
| `ChartTable` | chart_table_model.dfy | chartshape/ChartTableModel.cpp |
| `ChartShapeOdf` | chart_shape.dfy | chartshape/ChartShape.cpp |
| `Proxy` | proxy_model.dfy | kchart/shape/ProxyModel.cpp |
| `TableRoundTrip` | table_round_trip.dfy | saving and reloading the internal table |

Objects whose fields the C++ updates in place are classes:
- `Params`, `TableModel`, `ProxyModel`, `ChartShape` and `Label`;
- the XML writer.

Their methods carry `modifies` frames. Code that only computes is written as
functions and lemmas.

## Model

| member | source | states |
|---|---|---|
| ChartValues.ChartData.ClearValue | kchart/kdchart/KDChartData.h:105-108 | the cleared value has no value, and its string, double and date-time slots keep what they held |
| ChartValues.Default | kchart/kdchart/KDChartData.h:54-56 | a default value has no value; its string accessor gives "" and its double accessor gives MINDOUBLE |
| ChartValues.FromDouble | kchart/kdchart/KDChartData.h:44-47 | a double value is a double with that payload; the other accessors give their defaults |
| ChartValues.FromString | kchart/kdchart/KDChartData.h:49-52 | a string value is a string with that payload; the other accessors give their defaults |
| ChartValues.ExactlyOneKind | kchart/kdchart/KDChartData.h:63-78 | a value has a value exactly when it is one of string, double and date-time, and never two of them |
| ChartValues.WrongKindDefaults | kchart/kdchart/KDChartData.h:110-121 | an accessor of the wrong kind returns "", MINDOUBLE or the invalid date-time |
| ChartValues.EqualsMeaning | kchart/kdchart/KDChartData.h:80-103 | equal values agree on presence and kind; all empty values are equal; same-kind values are equal exactly when their payloads are |
| ChartValues.EqualsIsEquivalence | kchart/kdchart/KDChartData.h:80-103 | with doubles compared by bit pattern, `operator==` is reflexive, symmetric and transitive |
| ChartValues.ClearedEqualsDefault | kchart/kdchart/KDChartData.h:105-108 | after clearValue a value equals a default-constructed one |
| QMaps.Insert | kchart/kdchart/KDChartParams.cpp:294-295 | inserting keeps the map sorted and keeps every lower bound that lies below the new key |
| QMaps.Find | kchart/kdchart/KDChartParams.cpp:329-330 | find gives the position of the key, or the end position exactly when the key is absent |
| QMaps.InsertLookup | kchart/kdchart/KDChartParams.cpp:294-295 | after `m[k] = v`, k holds v and every other key holds what it held |
| QMaps.LookupBelow | kchart/kdchart/KDChartParams.cpp:329-331 | no key at or below a lower bound of all keys is present |
| QMaps.LookupAt | kchart/kdchart/KDChartParams.cpp:329-331 | in a sorted map every entry is found under its own key |
| ChartParams.Params.constructor | kchart/kdchart/KDChartParams.cpp:78-275 | bar chart; empty, unused source-mode map; datasets 0 to 11 get the twelve named colours and no other dataset has one; largest coloured dataset 11; default axes |
| ChartParams.Params.SetDefaultDataColors | kchart/kdchart/KDChartParams.cpp:101-112 | starting from no colours, datasets 0 to 11 get the twelve named colours in order and nothing else is coloured |
| ChartParams.DefaultColorsLookup | kchart/kdchart/KDChartParams.cpp:101-112 | after the first n calls exactly datasets 0 to n-1 have their default colours |
| ChartParams.Params.SetChartSourceMode | kchart/kdchart/KDChartParams.cpp:284-304 | a proper range sets every dataset in it and keeps every other entry, raises the largest dataset and marks the map used; UnknownMode for ALL_DATASETS clears the map; anything else changes nothing; the map never holds a key above the largest dataset |
| ChartParams.Params.ChartSourceMode | kchart/kdchart/KDChartParams.cpp:306-350 | the loop's answer equals SourceModeSpec: DataEntry/0 before use, Unknown outside the known range, else the mode and chart shared by every entry in the queried range |
| ChartParams.RangeMergeByPosition | kchart/kdchart/KDChartParams.cpp:327-342 | walking the iterator from the first key to the end of the range merges exactly the entries whose keys lie in the range |
| ChartParams.QueryAfterAssign | kchart/kdchart/KDChartParams.cpp:284-350 | querying exactly a range that was assigned gives back the assigned mode and chart |
| ChartParams.AllDatasetsQueryUnknown | kchart/kdchart/KDChartParams.cpp:313-325 | once the map is used, a query for ALL_DATASETS always answers UnknownMode and UNKNOWN_CHART |
| ChartParams.AllDatasetsQueryIntended | kchart/kdchart/KDChartParams.cpp:313-325 | with the intended query, all datasets give the shared mode and chart when every entry agrees, and UnknownMode when two modes differ |
| ChartParams.Params.FindDataset | kchart/kdchart/KDChartParams.cpp:353-384 | found exactly when some entry matches; then the first and last datasets of the first run of matching entries; before use only DataEntry, as ALL_DATASETS; on failure the arguments come back |
| ChartParams.FirstMatch | kchart/kdchart/KDChartParams.cpp:360-374 | the first position at or after `from` holding the mode and chart, or the end |
| ChartParams.RunEnd | kchart/kdchart/KDChartParams.cpp:360-374 | the first position at or after `from` not holding the mode and chart, or the end |
| ChartParams.FirstRunMeaning | kchart/kdchart/KDChartParams.cpp:353-384 | no smaller dataset has the mode and chart, and every dataset between the run's first and last has exactly them |
| ChartParams.Params.SetDataColor | kchart/kdchart/KDChartParams.cpp:387-419 | the colour map gains or replaces dataset's colour, and the largest coloured dataset becomes the max of old and new |
| ChartParams.Params.DataColor | kchart/kdchart/KDChartParams.cpp:422-426 | below the largest coloured dataset, a dataset gets its own stored colour, or an invalid one |
| ChartParams.DataColorWraps | kchart/kdchart/KDChartParams.cpp:422-426 | dataColor repeats with period equal to the largest coloured dataset |
| ChartParams.DataColorAliasesAfterConstruction | kchart/kdchart/KDChartParams.cpp:422-426 | after construction dataset 11 is drawn in dataset 0's red, not its own dark yellow |
| ChartParams.Params.DataColorIntended | kchart/kdchart/KDChartParams.cpp:422-426 | up to and including the largest coloured dataset, every dataset gets its own stored colour |
| ChartParams.DataColorIntendedWraps | kchart/kdchart/KDChartParams.cpp:422-426 | the intended lookup repeats with period one more than the largest coloured dataset |
| ChartParams.Params.ActivateDefaultAxes | kchart/kdchart/KDChartParams.cpp:639-697 | every axis becomes DefaultAxis(chartType, i): bottom and left visible over all datasets for bar, line and area, all others hidden with no dataset |
| ChartParams.DefaultAxesMeaning | kchart/kdchart/KDChartParams.cpp:639-697 | an axis is visible exactly when it is bottom or left of a bar, line or area chart, and exactly when it covers all datasets |
| ParamsXml.PenStyleRoundTrip | kchart/kdchart/KDChartParams.cpp:2228-2246 | each named style survives write then read; other styles read back as SolidLine; unknown names read as SolidLine; each style name survives read then write |
| ParamsXml.ReadBoolNode | kchart/kdchart/KDChartParams.cpp:2276-2286 | succeeds exactly on the texts "true" and "false", giving true exactly on "true"; on failure the value is unchanged |
| ParamsXml.BoolNodeRoundTrip | kchart/kdchart/KDChartParams.cpp:2028-2037 | the appended boolean element reads back successfully as the written value |
| ParamsXml.ReadIntNode | kchart/kdchart/KDChartParams.cpp:2256-2263 | succeeds exactly when the text converts as `toInt` does (surrounding whitespace skipped, optional sign, decimal digits, 32-bit range), giving that int; on failure the value is unchanged |
| Base.ParseIntPadded | kchart/kdchart/KDChartParams.cpp:2256-2263 | the conversion `readIntNode` uses skips whitespace on both sides: a numeral padded with whitespace converts as the bare numeral does |
| Base.ParseIntNumberTextPadded | kchart/kdchart/KDChartParams.cpp:2256-2263 | the decimal text of any 32-bit int, with any whitespace around it, converts back to that int |
| ParamsXml.IntNodeRoundTrip | kchart/kdchart/KDChartParams.cpp:2051-2060 | the appended int element reads back successfully as the written 32-bit value |
| ParamsXml.ReadColorNode | kchart/kdchart/KDChartParams.cpp:2289-2313 | succeeds exactly when each present component converts; then an RGB colour with each present component's value; on failure the value is unchanged |
| ParamsXml.ReloadedColor | kchart/kdchart/KDChartParams.cpp:2088-2099 | a valid colour reloads as itself, an invalid one as black |
| ParamsXml.ColorElementReads | kchart/kdchart/KDChartParams.cpp:2088-2099 | the colour element written for a Qt colour reads back successfully as ReloadedColor |
| ParamsXml.ColorNodeRoundTrip | kchart/kdchart/KDChartParams.cpp:2088-2099 | the appended colour element reads back successfully as ReloadedColor |
| ParamsXml.ColorMapChildren | kchart/kdchart/KDChartParams.cpp:2102-2119 | a colour map is written as two children per entry |
| ParamsXml.ToUint | kchart/kdchart/KDChartParams.cpp:2316-2341 | a non-negative int converts unchanged, a negative one wraps by 2^32 |
| ParamsXml.ReadColorMapFrom | kchart/kdchart/KDChartParams.cpp:2316-2341 | reading the children keeps the colour map sorted |
| ParamsXml.ReadColorMapNode | kchart/kdchart/KDChartParams.cpp:2316-2341 | the loop's result is ReadColorMapFrom over the element's children, starting at dataset -1 |
| ParamsXml.ReadColorMapOk | kchart/kdchart/KDChartParams.cpp:2316-2341 | the read succeeds exactly when every element child is a Dataset or a Color |
| ParamsXml.EntryRead | kchart/kdchart/KDChartParams.cpp:2102-2119 | a written Dataset/Color pair inserts that dataset's reloaded colour and makes it the current dataset |
| ParamsXml.ColorMapChildrenRead | kchart/kdchart/KDChartParams.cpp:2102-2119 | reading written entries succeeds; each written key gets its reloaded colour and every other key keeps its previous colour |
| ParamsXml.ColorMapRoundTrip | kchart/kdchart/KDChartParams.cpp:2102-2119 | the appended colour-map element reads back successfully, with each written key's reloaded colour and nothing else changed |
| ParamsXml.ReadChartValueNode | kchart/kdchart/KDChartParams.cpp:2483-2499 | NoValue gives the empty value; no known attribute fails; a double comes from the DoubleValue text, a string from StringValue; never a date-time; on failure the value is unchanged |
| ParamsXml.ChartValueRoundTrip | kchart/kdchart/KDChartParams.cpp:2186-2199 | empty values and strings come back equal; a date-time comes back empty; a double comes back as what its text converts to, equal when the conversion is exact |
| ChartTable.Select | chartshape/ChartTableModel.cpp:118-123 | the selected children are a no-longer list of elements with the given name |
| ChartTable.CellValue | chartshape/ChartTableModel.cpp:146-169 | nothing exactly when the cell has no `text:p` and an empty `office:value`; otherwise, on the cell's text (the value attribute when non-empty, else the paragraph's text), a "float" cell holds `toDouble` of it, a "boolean" cell holds true exactly when it converts as `toInt` does to a non-zero int, and any other cell holds the text |
| ChartTable.KeepRows | chartshape/ChartTableModel.cpp:94 | exactly the cells in rows below n survive, with their values |
| ChartTable.KeepColumns | chartshape/ChartTableModel.cpp:95 | exactly the cells in columns below n survive, with their values |
| ChartTable.TableModel.constructor | chartshape/ChartTableModel.cpp:50-53 | an empty table with no rows or columns |
| ChartTable.TableModel.SetRowCount | chartshape/ChartTableModel.cpp:126 | the row count becomes n; cells in dropped rows go away, the rest stay |
| ChartTable.TableModel.SetColumnCount | chartshape/ChartTableModel.cpp:143-144 | the column count becomes n; cells in dropped columns go away, the rest stay |
| ChartTable.TableModel.SetData | chartshape/ChartTableModel.cpp:169 | succeeds exactly inside the table, storing the value there and nothing else |
| ChartTable.TableModel.LoadOdf | chartshape/ChartTableModel.cpp:89-182 | found exactly when a table-rows or table-header-rows child exists; the table becomes Loaded over all their rows: one row per table-row, as wide as the widest row, each cell's value |
| ChartTable.TableModel.LoadRowGroup | chartshape/ChartTableModel.cpp:118-177 | the state after a row group is LoadRows of the state before |
| ChartTable.TableModel.ReadRow | chartshape/ChartTableModel.cpp:126-175 | a row adds one row and reads each table-cell in order |
| ChartTable.TableModel.ReadCell | chartshape/ChartTableModel.cpp:143-171 | a cell at the current width widens the table by one; a cell with a value stores it at (row, column) and nothing else changes |
| ChartTable.LoadedTable | chartshape/ChartTableModel.cpp:108-179 | loading the table children from empty gives Loaded over the rows of all row groups |
| ChartTable.LoadGroupsMeaning | chartshape/ChartTableModel.cpp:108-179 | loading groups appends their rows to those already loaded |
| ChartTable.LoadRowsMeaning | chartshape/ChartTableModel.cpp:118-177 | loading the children of a group appends its table-row children |
| ChartTable.LoadRowMeaning | chartshape/ChartTableModel.cpp:126-175 | loading one more row is Loaded over the rows with it appended |
| ChartTable.LoadCellsMeaning | chartshape/ChartTableModel.cpp:131-172 | reading a row's children is reading its table-cell children in order |
| ChartTable.HasRowGroupStep | chartshape/ChartTableModel.cpp:112-115 | `found` after one more child is `found` before, or that child is a row group |
| ChartTable.RowMapMeaning | chartshape/ChartTableModel.cpp:146-171 | row i's map holds (i, c) exactly for cells with a value, with that value |
| ChartTable.LoadedCellsMeaning | chartshape/ChartTableModel.cpp:131-172 | the loaded table holds (i, j) exactly when row i's j-th cell has a value, with that value |
| ChartTable.MaxWidthIsWidest | chartshape/ChartTableModel.cpp:143-144 | the column count is at least every row's width and equals the widest row's, and 0 without rows |
| ChartTable.LoadedCellsInBounds | chartshape/ChartTableModel.cpp:143-169 | every loaded cell lies inside the loaded row and column counts |
| ChartTable.CellRegion | chartshape/ChartTableModel.cpp:60-64 | the cell-region table is always empty |
| ChartTable.SetCellRegion | chartshape/ChartTableModel.cpp:66-80 | every region name is accepted |
| ChartTable.IsCellRegionValid | chartshape/ChartTableModel.cpp:82-87 | every region name is valid |
| ChartShapeOdf.TypeIndex | chartshape/ChartShape.cpp:118-130 | each chart type has its index in the ODF class table |
| ChartShapeOdf.OdfClassesDistinct | chartshape/ChartShape.cpp:118-130 | the eleven ODF chart classes are pairwise different |
| ChartShapeOdf.OdfClassInjective | chartshape/ChartShape.cpp:118-130 | different chart types have different ODF classes |
| ChartShapeOdf.DefaultSubtypeMeaning | chartshape/ChartShape.cpp:132-144 | bar, line, area and radar default to the normal subtype, all others to none |
| ChartShapeOdf.FindChartType | chartshape/ChartShape.cpp:964-980 | known exactly when the class is in the table, and then the type whose class it is; otherwise bar |
| ChartShapeOdf.LoadChartClass | chartshape/ChartShape.cpp:955-988 | no chart:class fails; otherwise succeeds exactly on a known class, with the type whose class it is |
| ChartShapeOdf.FontWeightMeaning | chartshape/ChartShape.cpp:156-157 | weight 50 is "normal", 75 "bold", any other weight w the hundreds text of w/10 |
| ChartShapeOdf.QFontWeights | chartshape/ChartShape.cpp:156-157 | Qt's Light, Normal, DemiBold, Bold and Black become 200, normal, 600, bold and 800 |
| ChartShapeOdf.SaveOdfLabel | chartshape/ChartShape.cpp:163-193 | a hidden label or one without text writes nothing; otherwise one title/subtitle/footer element with the geometry, style and paragraph |
| ChartShapeOdf.WriteParagraph | chartshape/ChartShape.cpp:189-191 | writes one text:p element holding the text |
| ChartShapeOdf.DefaultDataSetColor | chartshape/ChartShape.cpp:214-218 | a non-negative dataset number gets the palette entry at its remainder by 12; a negative one reads outside the table unless it is a multiple of 12 |
| ChartShapeOdf.DefaultDataSetColorPeriodic | chartshape/ChartShape.cpp:214-218 | the palette repeats every 12 datasets, and two datasets share a colour exactly when they agree mod 12 |
| ChartShapeOdf.ResolveEmbeddedDocument | chartshape/ChartShape.cpp:751-810 | the step-by-step href rewriting computes ResolveHref |
| ChartShapeOdf.ResolveHrefMeaning | chartshape/ChartShape.cpp:751-810 | an empty href is a placeholder, a missing one fails; a resolved one has a slash-terminated path, a known mime type, and the store URL with "/maindoc.xml" for non-ODF types |
| ChartShapeOdf.StorePathEndsWithSlash | chartshape/ChartShape.cpp:781-790 | the store path always ends with a slash |
| ChartShapeOdf.StoreUrlMeaning | chartshape/ChartShape.cpp:769-779 | a relative URL becomes intern:/ plus itself, with a leading "./" dropped; a leading '#' is ignored; an absolute URL is kept |
| ChartShapeOdf.StoreUrlPlain | chartshape/ChartShape.cpp:769-779 | a URL without '#' or "./" becomes intern:/ plus itself when relative, and itself otherwise |
| ChartShapeOdf.StoreUrlDotSlash | chartshape/ChartShape.cpp:772-776 | a relative "./x" becomes intern:/x |
| ChartShapeOdf.StoreUrlHash | chartshape/ChartShape.cpp:769-770 | a leading '#' is dropped before anything else |
| ChartShapeOdf.SaveOdfCell | chartshape/ChartShape.cpp:1165-1198 | writes one table-cell element for the value: typed and with a paragraph for strings, doubles and date-times, bare otherwise |
| ChartShapeOdf.SaveOdfDataRow | chartshape/ChartShape.cpp:1153-1202 | writes one table-row element holding one cell element per column |
| ChartShapeOdf.SaveOdfData | chartshape/ChartShape.cpp:1204-1251 | no model writes nothing; otherwise one named table element with header columns, columns, header rows and data rows |
| ChartShapeOdf.SaveHeaderColumns | chartshape/ChartShape.cpp:1224-1227 | writes exactly one header column |
| ChartShapeOdf.SaveColumns | chartshape/ChartShape.cpp:1230-1234 | writes one column repeated once per model column |
| ChartShapeOdf.SaveHeaderRows | chartshape/ChartShape.cpp:1238-1241 | the header rows hold row 0 when there is one; the next row is 1, or 0 without rows |
| ChartShapeOdf.SaveDataRows | chartshape/ChartShape.cpp:1244-1249 | the data rows hold every row after the header row, in order |
| ChartShapeOdf.Label.constructor | chartshape/ChartShape.cpp:163-187 | a label keeps the visibility, geometry and text it was given |
| ChartShapeOdf.ChartShape.constructor | chartshape/ChartShape.cpp:256-279 | a new shape uses its internal model only and has scheduled no relayout |
| ChartShapeOdf.ChartShape.SetChildVisible | chartshape/ChartShape.cpp:334-344 | the child gets the visibility, and a relayout is scheduled exactly when it changed |
| ChartShapeOdf.ChartShape.ShowTitle | chartshape/ChartShape.cpp:595-598 | the title gets the visibility, relayout exactly on change |
| ChartShapeOdf.ChartShape.ShowSubTitle | chartshape/ChartShape.cpp:600-603 | the subtitle gets the visibility, relayout exactly on change |
| ChartShapeOdf.ChartShape.ShowFooter | chartshape/ChartShape.cpp:605-608 | the footer gets the visibility, relayout exactly on change |
| ChartShapeOdf.ChartShape.Reset | chartshape/ChartShape.cpp:668-680 | the shape stops using only its internal model and the proxy takes the label flags and direction, keeping its source; the proxy's event log grows by the row-label setter's events, then the column-label setter's, then the direction setter's, each computed from the settings in force when it runs |
| Proxy.IndexOf | kchart/shape/ProxyModel.cpp:375-378 | -1 exactly when absent, else the first position holding the data set |
| Proxy.ProxyModel.constructor | kchart/shape/ProxyModel.cpp:49-53 | no source, no data sets, no labels, vertical direction |
| Proxy.ProxyModel.SetSourceModel | kchart/shape/ProxyModel.cpp:59-68 | the source is set and one model reset is signalled |
| Proxy.ProxyModel.MapToSource | kchart/shape/ProxyModel.cpp:179-201 | a mapped index is the coordinate translation and is a valid source index |
| Proxy.ProxyModel.MapFromSource | kchart/shape/ProxyModel.cpp:155-177 | a mapped index is the inverse coordinate translation as written |
| Proxy.MapToSourceOntoDataCells | kchart/shape/ProxyModel.cpp:179-201 | every logical index maps to a source data cell, and every data cell is hit by the intended inverse |
| Proxy.MapFromSourceIntendedRoundTrip | kchart/shape/ProxyModel.cpp:155-201 | the intended inverse undoes mapToSource on every logical index |
| Proxy.FromSourceCoordsRoundTrip | kchart/shape/ProxyModel.cpp:155-201 | the written inverse undoes the translation exactly when the direction is vertical or both label flags agree |
| Proxy.VerticalMapFromSourceRoundTrip | kchart/shape/ProxyModel.cpp:155-201 | in vertical direction mapFromSource undoes mapToSource |
| Proxy.HorizontalMapFromSourceCounterexample | kchart/shape/ProxyModel.cpp:155-177 | horizontal, 3x3, label row: logical (0,0) maps to source (1,0), which maps back to nothing instead of (0,0) |
| Proxy.OrientationMapsInverse | kchart/shape/ProxyModel.cpp:203-227 | the two orientation maps are inverse, and swap orientations in horizontal direction |
| Proxy.HeaderAlignsWithData | kchart/shape/ProxyModel.cpp:100-132 | a header reads the label cell of the same source row or column as the data, or nothing without labels |
| Proxy.DataReadsMappedCell | kchart/shape/ProxyModel.cpp:70-77 | data reads the mapped source cell, and nothing without a source or outside it |
| Proxy.CountsFollowDirection | kchart/shape/ProxyModel.cpp:229-273 | row and column counts are the source's, less a label row or column, swapped in horizontal direction |
| Proxy.ProxyModel.ForwardDataChanged | kchart/shape/ProxyModel.cpp:89-98 | one dataChanged signal for the given region is appended |
| Proxy.ProxyModel.DataChanged | kchart/shape/ProxyModel.cpp:89-98 | one dataChanged signal for the whole model is appended |
| Proxy.ProxyModel.SetFirstRowIsLabel | kchart/shape/ProxyModel.cpp:275-305 | no change signals nothing; a change emits the structural events and a full dataChanged, and the affected extent shrinks or grows by one; the events are RowLabelEvents of the settings before the call |
| Proxy.ProxyModel.SetFirstColumnIsLabel | kchart/shape/ProxyModel.cpp:307-337 | as for the label row, on the column axis; the events are ColumnLabelEvents of the settings before the call |
| Proxy.ProxyModel.SetDataDirection | kchart/shape/ProxyModel.cpp:344-351 | the direction is set and a reset plus a full dataChanged over the grid in the new direction are signalled (DirectionEvents) |
| Proxy.ProxyModel.DataSetAt | kchart/shape/ProxyModel.cpp:368-373 | the data set at a position in range, otherwise none |
| Proxy.ProxyModel.DataSetIndex | kchart/shape/ProxyModel.cpp:375-378 | the first position of the data set, or -1 exactly when it is absent |
| TableRoundTrip.CellRoundTrip | chartshape/ChartShape.cpp:1165-1198 | a saved cell loads back as Reloaded: strings unchanged, doubles through their decimal text, date-times as the empty string, booleans and invalid values as nothing |
| TableRoundTrip.SavedRowCells | chartshape/ChartShape.cpp:1153-1202 | a saved row holds exactly one cell per column |
| TableRoundTrip.TableRowsOfGroups | chartshape/ChartShape.cpp:1220-1250 | of the four table children, only the header rows and data rows are row groups |
| TableRoundTrip.SavedTableRows | chartshape/ChartShape.cpp:1204-1251 | the saved table's row groups hold exactly the model's rows, in order |
| TableRoundTrip.SplitRows | chartshape/ChartShape.cpp:1236-1249 | header row and data rows together are all rows in order |
| TableRoundTrip.SavedWidth | chartshape/ChartShape.cpp:1153-1202 | the saved rows are all as wide as the model, so the widest is too |
| TableRoundTrip.SavedCell | chartshape/ChartShape.cpp:1153-1202 | each loaded cell of the saved rows is the reloaded model cell |
| TableRoundTrip.SavedCells | chartshape/ChartShape.cpp:1204-1251 | the loaded cells are exactly the reloaded model cells |
| TableRoundTrip.SavedTableReloads | chartshape/ChartShape.cpp:1204-1251 | loading the saved table gives the same row count, the same column count when there are rows, and the reloaded cells |
| TableRoundTrip.SaveAndReload | chartshape/ChartShape.cpp:1204-1251 | saving a model and loading the result into a new model finds a row group and reproduces the model's shape and reloaded cells |

## Left out

- The HSV shadow colours of `setDataColor` (KDChartParams.cpp 394-413) are not modelled. They are computed with floating point.
- The `operator<<` / `operator>>` streaming of the parameters is not modelled. Nor are the remaining node helpers (size, double, string, rect, font, string list, double map). These helpers are XML plumbing over floating point and fonts.
- `setChartType` and the per-axis setters are declared in KDChartParams.h, which is not part of this model. Chart types other than bar, line, area and pie are folded into one `OtherType`.
- ChartParams.Params.ActivateDefaultAxes: for chart types other than bar, line, area, pie and none, the debug-build assertion is not modelled. Those types get no axes, as in a release build.
- The numeric values of `SourceMode` and of the axis positions are not modelled. Each is an enumeration; bottom is axis 0 and left is axis 1.
- Params.SetDefaultDataColors: the constructor's twelve `setDataColor` calls are written as one loop over the palette.
- ChartValues.EqualsIsEquivalence: doubles are compared by bit pattern. With IEEE comparison, as in the C++, NaN is not equal to itself and +0 equals -0 although their bits differ, so `operator==` is not reflexive on NaN.
- ParamsXml.ReadColorNode: an absent component reads as 0. In the C++ it is an uninitialised local.
- ParamsXml.ReadColorNode: out-of-range components are kept as read. `QColor::setRgb` range handling is not modelled.
- ParamsXml.ColorMapRoundTrip requires keys up to INT_MAX and components 0 to 255. `createColorMapNode` writes a larger key as its unsigned decimal text, and `readIntNode`'s `toInt` rejects that text, so such a key does not read back.
- ParamsXml.ReadColorMapFrom: a Color before any Dataset is stored under dataset UINT_MAX, the unsigned image of -1. The C++ also has `ASSERT( curDataset != -1 )` there (KDChartParams.cpp:2328), a check made only in debug builds; release builds go on as modelled.
- ParamsXml.ChartValueRoundTrip: `QString::number(double)` and `QString::toDouble` are parameters. Whether a double survives depends on them.
- ChartShapeOdf.DefaultDataSetColor: a negative dataset number that is not a multiple of 12 gives `None`. The C++ indexes before the table there.
- ChartShapeOdf.ChartShape.Reset: the proxy's `reset(CellRegion)` is not modelled. Cell regions are not part of this model.
- ChartShapeOdf.SaveOdfLabel: the font auto-style registry of `saveOdfFont` is not modelled. The style name is a parameter; only the weight text is modelled.
- ChartShapeOdf.ResolveEmbeddedDocument: opening the store, reading the embedded document and creating it through `KoDocumentEntry` are not modelled. The store queries (`isRelativeUrl`, mime type lookup, document entry) are parameters.
- ChartShapeOdf.LoadChartClass: the `setDataDimensions` side effect on the proxy is not modelled. The rest of `loadOdfChartElement` (plot area, legend, styles) is not modelled either.
- The ChartShape constructor's creation of child shapes, painting and layout are not modelled. The layout is reduced to a count of scheduled relayouts.
- Doubles are opaque bit patterns, compared but never computed with. Variants carry no floating-point arithmetic.
- Qt signals are modelled as an event list appended to by the proxy model. Slots and connections are not modelled.
- The proxy's data-set list is taken as given and is never filled by the proxy. Data sets are opaque references kept in a sequence.
- `ChartTableModel::saveOdf` returns true and writes nothing. The table is saved by `ChartShape::saveOdfData`, which is modelled.
- ChartTable.TableModel.LoadOdf: the namespace checks are modelled by comparing qualified names. Namespaces are not resolved.

## Findings

| source | as written | input that shows it | evidently intended | confidence | as-written member | corrected member |
|---|---|---|---|---|---|---|
| kchart/shape/ProxyModel.cpp:155-177 | in horizontal direction, `mapFromSource` subtracts the label offsets without swapping them, so it does not invert `mapToSource` | 3x3 source, horizontal, first row is label: logical (0,0) maps to source (1,0), which maps back to (-1,1) and so to no index | the offsets swapped as in `mapToSource`, so that source (1,0) maps back to (0,0) | not executed | Proxy.HorizontalMapFromSourceCounterexample | Proxy.MapFromSourceIntendedRoundTrip |
| kchart/kdchart/KDChartParams.cpp:422-426 | `dataColor` takes the remainder by the largest coloured dataset, so the last coloured dataset aliases dataset 0 | after construction (datasets 0 to 11 coloured), dataset 11 is drawn red instead of dark yellow | the remainder by one more than the largest coloured dataset | not executed | ChartParams.DataColorAliasesAfterConstruction | ChartParams.Params.DataColorIntended |
| kchart/kdchart/KDChartParams.cpp:313-325 | the range check compares ALL_DATASETS with the largest dataset before the ALL_DATASETS case, so that case is unreachable | any used map, query for ALL_DATASETS: the answer is UnknownMode whatever the entries hold | ALL_DATASETS exempt from the range check and merged over every entry, starting at the smallest key rather than at `find(0)`, which finds nothing when dataset 0 has no entry | not executed | ChartParams.AllDatasetsQueryUnknown | ChartParams.AllDatasetsQueryIntended |
